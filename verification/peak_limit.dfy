/** The search for the smallest feasible power limit: `is_p_limit_posible`
    and `get_min_p_lim` of `consmodel/bs_sim.py` (and their copies in
    `consmodel/bs_model.py`).

    A trial walks the load series with a candidate limit, shaving every
    excess above it from the battery and recharging with the headroom below
    it. It fails as soon as an excess exceeds the discharge rating or the
    stored energy. The battery is NOT reset between trials: each trial
    starts from the state the previous one left.
 */
module PeakLimit {
  import opened Results
  import opened Storage

  /** The return values 1 and -1 of the trial. */
  datatype Verdict = Feasible | Infeasible

  function Flip(v: Verdict): Verdict {
    if v == Feasible then Infeasible else Feasible
  }

  /** A trial's verdict and the battery it leaves behind. */
  datatype Trial = Trial(verdict: Verdict, bat: Battery)

  /** One sample of a trial: `Stop` for an early `return -1`, otherwise the
      battery after shaving or recharging. */
  datatype Probe = Continue(bat: Battery) | Stop

  /** A peak cannot be shaved to the limit from this battery. */
  predicate CannotShave(b: Battery, p: real, limit: real) {
    p > limit && (b.currentE < 0.0 || p - limit > b.maxDischarge || b.currentE < (p - limit) * Dt)
  }

  /** One sample of `is_p_limit_posible`. On a configured battery whose
      discharge rating does not exceed its charge rating it never raises. */
  function ProbeStep(eng: Engine, b: Battery, p: real, limit: real): (r: Result<Probe>)
    ensures r.Ok? && r.value.Stop? <==> CannotShave(b, p, limit)
    ensures r.Ok? && r.value.Continue? ==> SameRatings(b, r.value.bat)
    ensures r.Ok? && r.value.Continue? && p > limit ==> r.value.bat.currentE == b.currentE - (p - limit) * Dt
    ensures Configured(b) && b.maxDischarge <= b.maxCharge ==>
      && r.Ok?
      && (r.value.Continue? ==> Configured(r.value.bat))
      && (p <= limit ==> r.value.Continue? && r.value.bat.currentE == Recharged(b, p, limit))
  {
    if p > limit then
      if b.currentE >= 0.0 then
        if p - limit > b.maxDischarge then Ok(Stop)
        else if b.currentE < (p - limit) * Dt then Ok(Stop)
        else
          var a :- Discharge(eng, b, p - limit, Dt);
          Ok(Continue(a.bat))
      else
        Ok(Stop)
    else
      var c0 := Min(limit - p, b.maxCharge);
      if b.currentE < b.maxE then
        var c := if b.currentE + c0 * Dt > b.maxE then (b.maxE - b.currentE) * 4.0 else c0;
        assert b.currentE + c * Dt <= b.maxE;
        var a :- Charge(eng, b, c, Dt);
        Ok(Continue(a.bat))
      else
        Ok(Continue(b))
  }

  /** The energy after one recharging sample: the headroom below the limit,
      capped by the rating, stored until the battery is full. */
  function Recharged(b: Battery, p: real, limit: real): real {
    Min(b.currentE + Min(limit - p, b.maxCharge) * Dt, b.maxE)
  }

  /** Every sample can be held at the limit from the state the samples before
      it left. */
  predicate NeverStuck(eng: Engine, b: Battery, loads: seq<real>, limit: real)
    decreases |loads|
  {
    |loads| > 0 ==>
      && !CannotShave(b, loads[0], limit)
      && var pr := ProbeStep(eng, b, loads[0], limit);
         pr.Ok? && pr.value.Continue? ==> NeverStuck(eng, pr.value.bat, loads[1..], limit)
  }

  /** `is_p_limit_posible`: 1 when every sample can be held at the limit. The
      battery is threaded through the samples and left where the trial
      stopped. */
  function IsLimitPossible(eng: Engine, b: Battery, loads: seq<real>, limit: real): (r: Result<Trial>)
    ensures r.Ok? ==> SameRatings(b, r.value.bat)
    ensures r.Ok? ==> (r.value.verdict == Feasible <==> NeverStuck(eng, b, loads, limit))
    ensures Configured(b) && b.maxDischarge <= b.maxCharge ==> r.Ok? && Configured(r.value.bat)
    decreases |loads|
  {
    if |loads| == 0 then Ok(Trial(Feasible, b))
    else
      var pr :- ProbeStep(eng, b, loads[0], limit);
      match pr
      case Stop => Ok(Trial(Infeasible, b))
      case Continue(next) => IsLimitPossible(eng, next, loads[1..], limit)
  }

  /** A trial is the fold of its samples: given the battery before every
      sample and a sample that always continues, the trial is feasible and
      ends on the last battery. */
  lemma {:induction false} TrialFollowsProbes(eng: Engine, bats: seq<Battery>, loads: seq<real>, limit: real)
    requires |bats| == |loads| + 1
    requires forall i :: 0 <= i < |loads| ==> ProbeStep(eng, bats[i], loads[i], limit) == Ok(Continue(bats[i + 1]))
    ensures IsLimitPossible(eng, bats[0], loads, limit) == Ok(Trial(Feasible, bats[|loads|]))
    decreases |loads|
  {
    if |loads| > 0 {
      assert ProbeStep(eng, bats[0], loads[0], limit) == Ok(Continue(bats[1]));
      forall i | 0 <= i < |loads| - 1
        ensures ProbeStep(eng, bats[1..][i], loads[1..][i], limit) == Ok(Continue(bats[1..][i + 1]))
      {
        assert ProbeStep(eng, bats[i + 1], loads[i + 1], limit) == Ok(Continue(bats[i + 2]));
      }
      TrialFollowsProbes(eng, bats[1..], loads[1..], limit);
    }
  }

  /** A limit at or above every load is feasible from any configured state:
      no sample needs shaving, so the trial only recharges. */
  lemma {:induction false} FeasibleAtPeak(eng: Engine, b: Battery, loads: seq<real>, limit: real)
    requires Configured(b)
    requires forall i :: 0 <= i < |loads| ==> loads[i] <= limit
    ensures IsLimitPossible(eng, b, loads, limit).Ok?
    ensures IsLimitPossible(eng, b, loads, limit).value.verdict == Feasible
    ensures Configured(IsLimitPossible(eng, b, loads, limit).value.bat)
    decreases |loads|
  {
    if |loads| > 0 {
      var p := loads[0];
      if b.currentE < b.maxE {
        var c0 := Min(limit - p, b.maxCharge);
        var c := if b.currentE + c0 * Dt > b.maxE then (b.maxE - b.currentE) * 4.0 else c0;
        assert 0.0 <= c && b.currentE + c * Dt <= b.maxE;
      }
      var next := ProbeStep(eng, b, p, limit).value.bat;
      FeasibleAtPeak(eng, next, loads[1..], limit);
    }
  }

  /** Feasibility is monotone: a limit feasible from one state stays feasible
      for every higher limit from every state holding at least as much
      energy, and that trial ends holding at least as much energy too. This
      is what makes bisecting over the limit meaningful. */
  lemma {:induction false} FeasibleMonotone(eng: Engine, b: Battery, b': Battery, loads: seq<real>,
                                            limit: real, limit': real)
    requires Configured(b) && Configured(b') && SameRatings(b, b') && b.maxDischarge <= b.maxCharge
    requires b.currentE <= b'.currentE && limit <= limit'
    requires IsLimitPossible(eng, b, loads, limit).Ok?
    requires IsLimitPossible(eng, b, loads, limit).value.verdict == Feasible
    ensures IsLimitPossible(eng, b', loads, limit').Ok?
    ensures IsLimitPossible(eng, b', loads, limit').value.verdict == Feasible
    ensures IsLimitPossible(eng, b, loads, limit).value.bat.currentE
         <= IsLimitPossible(eng, b', loads, limit').value.bat.currentE
    decreases |loads|
  {
    if |loads| > 0 {
      var p := loads[0];
      var pr := ProbeStep(eng, b, p, limit).value;
      assert pr.Continue?;
      assert !CannotShave(b', p, limit');
      var pr' := ProbeStep(eng, b', p, limit').value;
      if p > limit' {
        assert pr.bat.currentE == b.currentE - (p - limit) * Dt;
        assert pr'.bat.currentE == b'.currentE - (p - limit') * Dt;
      } else if p > limit {
        assert pr.bat.currentE <= b.currentE;
        assert pr'.bat.currentE >= b'.currentE;
      } else {
        assert Min(limit - p, b.maxCharge) <= Min(limit' - p, b'.maxCharge);
      }
      FeasibleMonotone(eng, pr.bat, pr'.bat, loads[1..], limit, limit');
    }
  }

  /** A trial fails once it reaches a sample whose excess over the limit is
      beyond the discharge rating. When every earlier sample lies at or below
      the limit, the trial only recharged before failing, so it leaves at
      least the energy it started with. */
  lemma {:induction false} InfeasibleBeyondRating(eng: Engine, b: Battery, loads: seq<real>, limit: real, k: int)
    requires Configured(b) && b.maxDischarge <= b.maxCharge
    requires 0 <= k < |loads| && loads[k] - limit > b.maxDischarge
    ensures IsLimitPossible(eng, b, loads, limit).Ok?
    ensures IsLimitPossible(eng, b, loads, limit).value.verdict == Infeasible
    ensures (forall j :: 0 <= j < k ==> loads[j] <= limit) ==>
      IsLimitPossible(eng, b, loads, limit).value.bat.currentE >= b.currentE
    decreases k
  {
    if k > 0 {
      var pr := ProbeStep(eng, b, loads[0], limit).value;
      if pr.Continue? {
        assert pr.bat.maxDischarge == b.maxDischarge;
        InfeasibleBeyondRating(eng, pr.bat, loads[1..], limit, k - 1);
        if forall j :: 0 <= j < k ==> loads[j] <= limit {
          assert loads[0] <= limit;
          assert pr.bat.currentE >= b.currentE;
          assert forall j :: 0 <= j < k - 1 ==> loads[1..][j] == loads[j + 1];
        }
      }
    }
  }

  /** The largest load of a non-empty series. */
  function MaxOf(loads: seq<real>): (m: real)
    requires |loads| > 0
    ensures forall i :: 0 <= i < |loads| ==> loads[i] <= m
    ensures exists i :: 0 <= i < |loads| && loads[i] == m
    decreases |loads|
  {
    if |loads| == 1 then loads[0]
    else
      var rest := MaxOf(loads[1..]);
      assert forall i :: 1 <= i < |loads| ==> loads[i] == loads[1..][i - 1];
      if loads[0] >= rest then loads[0] else rest
  }

  /** The bracket of `get_min_p_lim`: from the rating plus one below the
      peak load up to the peak load. An empty series has no maximum; the
      bracket is then empty as well and the trials have nothing to decide. */
  function Bracket(b: Battery, loads: seq<real>): (r: (real, real))
    ensures |loads| > 0 ==> r.1 == MaxOf(loads) && r.0 == r.1 - b.maxDischarge - 1.0
  {
    var top := if |loads| == 0 then 0.0 else MaxOf(loads);
    (top - b.maxDischarge - 1.0, top)
  }

  /** The bracket always changes sign on a non-empty series: its lower end is
      infeasible from any configured state, its upper end feasible from any
      configured state, in particular from the one the first trial leaves. */
  lemma BracketChangesSign(eng: Engine, b: Battery, loads: seq<real>)
    requires Configured(b) && b.maxDischarge <= b.maxCharge && |loads| > 0
    ensures var (lo, hi) := Bracket(b, loads);
      var ta := IsLimitPossible(eng, b, loads, lo);
      && ta.Ok? && ta.value.verdict == Infeasible
      && IsLimitPossible(eng, ta.value.bat, loads, hi).Ok?
      && IsLimitPossible(eng, ta.value.bat, loads, hi).value.verdict == Feasible
  {
    var (lo, hi) := Bracket(b, loads);
    var k :| 0 <= k < |loads| && loads[k] == hi;
    InfeasibleBeyondRating(eng, b, loads, lo, k);
    FeasibleAtPeak(eng, IsLimitPossible(eng, b, loads, lo).value.bat, loads, hi);
  }

  /** A width halved n times. */
  function Halved(width: real, n: nat): real {
    if n == 0 then width else Halved(width, n - 1) / 2.0
  }

  /** Halving first and halving last agree. */
  lemma {:induction false} HalvedOfHalf(width: real, n: nat)
    ensures Halved(width / 2.0, n) == Halved(width, n) / 2.0
  {
    if n > 0 {
      HalvedOfHalf(width, n - 1);
    }
  }

  /** The absolute tolerance `xtol` passed to `bisect`. */
  const Xtol: real := 0.05

  /** The rounds `bisect` runs on an interval of the given width: it halves
      the step and stops at the first step narrower than the tolerance, after
      at least one round. */
  function Rounds(width: real): (k: nat)
    requires width >= 0.0
    ensures k >= 1 && Halved(width, k) < Xtol
    ensures k > 1 ==> Halved(width, k - 1) >= Xtol
    decreases (width * 20.0).Floor
  {
    if width / 2.0 < Xtol then 1
    else
      var k := Rounds(width / 2.0);
      HalvedOfHalf(width, k);
      HalvedOfHalf(width, k - 1);
      k + 1
  }

  /** The interval left after a bisection, the last midpoint it tried (the
      value `bisect` returns), and the battery its trials left. */
  datatype Interval = Interval(lo: real, hi: real, root: real, bat: Battery)

  /** The function `bisect` is handed: a trial at a limit, run from the
      battery the previous trial left. */
  type TrialAt = (Battery, real) -> Result<Trial>

  /** The trial of one load series, as a function of battery and limit. */
  function TrialOn(eng: Engine, loads: seq<real>): TrialAt {
    (c: Battery, x: real) => IsLimitPossible(eng, c, loads, x)
  }

  /** Trials keep the ratings, and from a configured battery whose discharge
      rating does not exceed its charge rating they succeed and leave a
      configured battery. */
  ghost predicate Threads(f: TrialAt) {
    forall c: Battery, x: real ::
      && (f(c, x).Ok? ==> SameRatings(c, f(c, x).value.bat))
      && (Configured(c) && c.maxDischarge <= c.maxCharge ==> f(c, x).Ok? && Configured(f(c, x).value.bat))
  }

  lemma TrialOnThreads(eng: Engine, loads: seq<real>)
    ensures Threads(TrialOn(eng, loads))
  {
    forall c: Battery, x: real
      ensures TrialOn(eng, loads)(c, x) == IsLimitPossible(eng, c, loads, x)
    {
    }
  }

  /** `rounds` rounds of bisection: each round tries the midpoint from the
      battery the previous trial left, and moves the lower end there when the
      verdict equals the one at the lower end, the upper end otherwise. */
  function Bisect(f: TrialAt, b: Battery, lo: real, hi: real, atLo: Verdict, rounds: nat): (r: Result<Interval>)
    requires rounds >= 1
    ensures r.Ok? && lo <= hi ==> lo <= r.value.lo <= r.value.hi <= hi
    ensures r.Ok? ==> r.value.hi - r.value.lo == Halved(hi - lo, rounds)
    ensures r.Ok? ==> r.value.root == r.value.lo || r.value.root == r.value.hi
    ensures Threads(f) && r.Ok? ==> SameRatings(b, r.value.bat)
    ensures Threads(f) && Configured(b) && b.maxDischarge <= b.maxCharge ==> r.Ok? && Configured(r.value.bat)
    decreases rounds
  {
    var mid := (lo + hi) / 2.0;
    var t :- f(b, mid);
    var lo', hi' := if t.verdict == atLo then mid else lo, if t.verdict == atLo then hi else mid;
    if rounds == 1 then
      Ok(Interval(lo', hi', mid, t.bat))
    else
      HalvedOfHalf(hi - lo, rounds - 1);
      Bisect(f, t.bat, lo', hi', atLo, rounds - 1)
  }

  /** The trial at `x` from the configured battery `c`, which has the ratings
      of `ref`, answers `v`. */
  ghost predicate TriedFrom(f: TrialAt, c: Battery, ref: Battery, x: real, v: Verdict) {
    Configured(c) && SameRatings(c, ref) && f(c, x).Ok? && f(c, x).value.verdict == v
  }

  /** Some configured battery with the ratings of `b` gives verdict `v` at
      limit `x`: the limit was tried and answered `v`. */
  ghost predicate VerdictAt(eng: Engine, b: Battery, loads: seq<real>, x: real, v: Verdict) {
    exists c :: TriedFrom(TrialOn(eng, loads), c, b, x, v)
  }

  /** The bisection invariant: the lower end keeps the lower verdict and the
      upper end the other one, so the final interval still brackets the
      change of verdict. Each end comes with the battery it was tried from. */
  lemma {:induction false} BisectKeepsVerdicts(f: TrialAt, ref: Battery, b: Battery, lo: real, hi: real,
                                               atLo: Verdict, rounds: nat, fromLo: Battery, fromHi: Battery)
      returns (lastLo: Battery, lastHi: Battery)
    requires Threads(f) && Configured(b) && b.maxDischarge <= b.maxCharge && SameRatings(b, ref) && rounds >= 1
    requires TriedFrom(f, fromLo, ref, lo, atLo) && TriedFrom(f, fromHi, ref, hi, Flip(atLo))
    ensures Bisect(f, b, lo, hi, atLo, rounds).Ok?
    ensures var iv := Bisect(f, b, lo, hi, atLo, rounds).value;
      TriedFrom(f, lastLo, ref, iv.lo, atLo) && TriedFrom(f, lastHi, ref, iv.hi, Flip(atLo))
    decreases rounds
  {
    var mid := (lo + hi) / 2.0;
    var t := f(b, mid).value;
    if t.verdict == atLo {
      if rounds > 1 {
        lastLo, lastHi := BisectKeepsVerdicts(f, ref, t.bat, mid, hi, atLo, rounds - 1, b, fromHi);
      } else {
        lastLo, lastHi := b, fromHi;
      }
    } else {
      assert t.verdict == Flip(atLo);
      if rounds > 1 {
        lastLo, lastHi := BisectKeepsVerdicts(f, ref, t.bat, lo, mid, atLo, rounds - 1, fromLo, b);
      } else {
        lastLo, lastHi := fromLo, b;
      }
    }
  }

  /** The same invariant with the batteries left implicit. */
  lemma BisectBrackets(eng: Engine, b: Battery, loads: seq<real>, lo: real, hi: real, atLo: Verdict, rounds: nat)
    requires Configured(b) && b.maxDischarge <= b.maxCharge && rounds >= 1
    requires VerdictAt(eng, b, loads, lo, atLo) && VerdictAt(eng, b, loads, hi, Flip(atLo))
    ensures Bisect(TrialOn(eng, loads), b, lo, hi, atLo, rounds).Ok?
    ensures var iv := Bisect(TrialOn(eng, loads), b, lo, hi, atLo, rounds).value;
      VerdictAt(eng, b, loads, iv.lo, atLo) && VerdictAt(eng, b, loads, iv.hi, Flip(atLo))
  {
    var f := TrialOn(eng, loads);
    TrialOnThreads(eng, loads);
    var fromLo :| TriedFrom(f, fromLo, b, lo, atLo);
    var fromHi :| TriedFrom(f, fromHi, b, hi, Flip(atLo));
    var lastLo, lastHi := BisectKeepsVerdicts(f, b, b, lo, hi, atLo, rounds, fromLo, fromHi);
  }

  /** `get_min_p_lim`: a trial at each end of the bracket (the second from
      the battery the first left), the sign error when both agree, then as
      many bisection rounds as `bisect` runs on the bracket's width. */
  function GetMinLimit(eng: Engine, b: Battery, loads: seq<real>): (r: Result<Interval>)
    ensures |loads| == 0 ==> r == Err(NoSignChange)
    ensures r.Ok? ==> SameRatings(b, r.value.bat)
    ensures r.Ok? ==> r.value.root == r.value.lo || r.value.root == r.value.hi
    ensures r.Ok? && b.maxDischarge >= 0.0 ==>
      && Bracket(b, loads).0 <= r.value.lo <= r.value.hi <= Bracket(b, loads).1
      && r.value.hi - r.value.lo < Xtol
  {
    var (lo, hi) := Bracket(b, loads);
    var ta :- IsLimitPossible(eng, b, loads, lo);
    var tb :- IsLimitPossible(eng, ta.bat, loads, hi);
    if ta.verdict == tb.verdict then Err(NoSignChange)
    else
      TrialOnThreads(eng, loads);
      Bisect(TrialOn(eng, loads), tb.bat, lo, hi, ta.verdict, Rounds(if lo <= hi then hi - lo else lo - hi))
  }

  /** On a configured battery and a non-empty series the search never
      raises, and its final interval is infeasible at its lower end and
      feasible at its upper end, and narrower than the tolerance. */
  lemma GetMinLimitSucceeds(eng: Engine, b: Battery, loads: seq<real>)
    requires Configured(b) && b.maxDischarge <= b.maxCharge && |loads| > 0
    ensures GetMinLimit(eng, b, loads).Ok?
    ensures var iv := GetMinLimit(eng, b, loads).value;
      && VerdictAt(eng, b, loads, iv.lo, Infeasible) && VerdictAt(eng, b, loads, iv.hi, Feasible)
      && iv.hi - iv.lo == Halved(b.maxDischarge + 1.0, Rounds(b.maxDischarge + 1.0))
  {
    var (lo, hi) := Bracket(b, loads);
    var f := TrialOn(eng, loads);
    var ta, tb := SearchBisects(eng, b, loads);
    TrialOnThreads(eng, loads);
    assert TriedFrom(f, b, b, lo, Infeasible);
    assert TriedFrom(f, ta.bat, b, hi, Feasible);
    var lastLo, lastHi := BisectKeepsVerdicts(f, b, tb.bat, lo, hi, Infeasible, Rounds(hi - lo), b, ta.bat);
  }

  /** On a configured battery and a non-empty series the end trials change
      sign, so the search is the bisection of the bracket. */
  lemma SearchBisects(eng: Engine, b: Battery, loads: seq<real>) returns (ta: Trial, tb: Trial)
    requires Configured(b) && b.maxDischarge <= b.maxCharge && |loads| > 0
    ensures var (lo, hi) := Bracket(b, loads);
      && IsLimitPossible(eng, b, loads, lo) == Ok(ta) && ta.verdict == Infeasible
      && IsLimitPossible(eng, ta.bat, loads, hi) == Ok(tb) && tb.verdict == Feasible
      && Configured(tb.bat) && SameRatings(b, tb.bat)
      && hi - lo == b.maxDischarge + 1.0
      && GetMinLimit(eng, b, loads) == Bisect(TrialOn(eng, loads), tb.bat, lo, hi, Infeasible, Rounds(hi - lo))
  {
    var (lo, hi) := Bracket(b, loads);
    BracketChangesSign(eng, b, loads);
    ta := IsLimitPossible(eng, b, loads, lo).value;
    tb := IsLimitPossible(eng, ta.bat, loads, hi).value;
  }
}
