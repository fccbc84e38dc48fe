/**
 * The month-stepped cohort simulation of simulations.py: a random test
 * subset of the patient numbers, the generator that walks the months from
 * `start` to `end` and emits every admitted patient each month, the feature
 * vectors appended to the learn and test data, and the threshold decisions
 * against the stroke label.
 */
module Simulations {
  import opened Wrappers
  import opened Dates
  import opened Diseases
  import opened Timeline
  import opened Patients
  import opened DiseaseGroups
  import opened AnticoagulantDecision
  import opened LearningTest

  /** A rate such as `test_rate=0.30`, as the exact fraction `num / den`. */
  datatype Fraction = Fraction(num: int, den: int)

  /** A fraction with a positive denominator. */
  type Rate = r: Fraction | 0 < r.den witness Fraction(0, 1)

  /** The patient dict in its iteration order: (patient number, patient). */
  type Cohort = seq<(int, Patient)>

  /** `list(patients.keys())`. */
  function Keys(patients: Cohort): (keys: seq<int>)
    ensures |keys| == |patients| && forall i :: 0 <= i < |patients| ==> keys[i] == patients[i].0
  {
    if patients == [] then [] else Keys(patients[..|patients| - 1]) + [patients[|patients| - 1].0]
  }

  /** No number occurs twice. */
  predicate Unique(s: seq<int>)
  {
    forall i, j :: 0 <= i < j < |s| ==> s[i] != s[j]
  }

  /**
   * Python's `round` of `a / b`: the nearest integer, and the even one of
   * the two on a tie.
   */
  function RoundHalfEven(a: int, b: int): (r: int)
    requires 0 < b
    ensures -b <= 2 * (r * b - a) <= b
    ensures (2 * (r * b - a) == b || 2 * (r * b - a) == -b) ==> r % 2 == 0
  {
    var q := a / b;
    var rem := a - q * b;
    assert (q + 1) * b == q * b + b;
    if 2 * rem < b then q
    else if 2 * rem > b then q + 1
    else if q % 2 == 0 then q
    else q + 1
  }

  /** A positive multiple of `b` is at least `b`. */
  lemma {:induction false} MulAtLeast(x: int, b: int)
    requires 1 <= x && 0 <= b
    ensures b <= x * b
    decreases x
  {
    if x > 1 {
      MulAtLeast(x - 1, b);
      assert x * b == (x - 1) * b + b;
    }
  }

  /** Two integers within half of `b` of `a / b`, even on a tie, are the same. */
  lemma NearestIsUnique(a: int, b: int, m: int, r: int)
    requires 0 < b
    requires -b <= 2 * (m * b - a) <= b && -b <= 2 * (r * b - a) <= b
    requires (2 * (m * b - a) == b || 2 * (m * b - a) == -b) ==> m % 2 == 0
    requires (2 * (r * b - a) == b || 2 * (r * b - a) == -b) ==> r % 2 == 0
    ensures m == r
  {
    var d := m - r;
    assert d * b == (m * b - a) - (r * b - a);
    if d >= 2 {
      MulAtLeast(d - 1, b);
    } else if d <= -2 {
      MulAtLeast(-d - 1, b);
    }
  }

  /** The nearest integer, ties to even, is the only integer with those properties. */
  lemma RoundHalfEvenIsUnique(a: int, b: int, m: int)
    requires 0 < b
    requires -b <= 2 * (m * b - a) <= b
    requires (2 * (m * b - a) == b || 2 * (m * b - a) == -b) ==> m % 2 == 0
    ensures m == RoundHalfEven(a, b)
  {
    NearestIsUnique(a, b, m, RoundHalfEven(a, b));
  }

  /** `round(2.5) == 2`, `round(3.5) == 4`, `round(0.3 * 4) == 1`. */
  lemma RoundHalfEvenExamples()
    ensures RoundHalfEven(5, 2) == 2 && RoundHalfEven(7, 2) == 4 && RoundHalfEven(12, 10) == 1
  {
  }

  /** The length of Python's `s[0:k]` on a list of length `n`; a negative `k` counts from the end. */
  function PrefixLength(k: int, n: nat): (len: nat)
    ensures len <= n
    ensures 0 <= k ==> len == if k < n then k else n
    ensures k < 0 ==> len == if n + k < 0 then 0 else n + k
  {
    if k < 0 then (if n + k < 0 then 0 else n + k)
    else if k < n then k
    else n
  }

  /** A sequence holding the same elements as another holds none twice when the other does not. */
  lemma UniqueByMultiset(s: seq<int>, t: seq<int>)
    requires multiset(s) == multiset(t) && Unique(s)
    ensures Unique(t)
  {
    forall i, j | 0 <= i < j < |t|
      ensures t[i] != t[j]
    {
      if t[i] == t[j] {
        assert t == t[..j] + t[j..];
        assert t[i] in multiset(t[..j]) && t[j] in multiset(t[j..]);
        assert multiset(t)[t[i]] >= 2;
        UniqueCountsOnce(s, t[i]);
      }
    }
  }

  /** In a sequence without repeats every number occurs at most once. */
  lemma {:induction false} UniqueCountsOnce(s: seq<int>, x: int)
    requires Unique(s)
    ensures multiset(s)[x] <= 1
  {
    if s != [] {
      var n := |s| - 1;
      assert s == s[..n] + [s[n]];
      assert Unique(s[..n]);
      UniqueCountsOnce(s[..n], x);
      if s[n] == x {
        assert x !in s[..n];
      }
    }
  }

  /**
   * `get_random_subset(patients, test_rate)`: the first
   * `round(len(patients) * test_rate)` numbers of the shuffled keys. The
   * shuffle is the input `shuffled`, any rearrangement of the keys.
   */
  function RandomSubset(keys: seq<int>, rate: Rate, shuffled: seq<int>): (subset: seq<int>)
    requires multiset(shuffled) == multiset(keys)
    ensures |subset| == PrefixLength(RoundHalfEven(|keys| * rate.num, rate.den), |keys|)
    ensures forall k :: k in subset ==> k in keys
    ensures Unique(keys) ==> Unique(subset)
  {
    var n := PrefixLength(RoundHalfEven(|keys| * rate.num, rate.den), |keys|);
    PrefixOfShuffle(keys, shuffled, n);
    shuffled[..n]
  }

  /** A prefix of a rearrangement of the keys holds only keys, and none twice when the keys are unique. */
  lemma PrefixOfShuffle(keys: seq<int>, shuffled: seq<int>, n: nat)
    requires multiset(shuffled) == multiset(keys) && n <= |keys|
    ensures n <= |shuffled|
    ensures forall k :: k in shuffled[..n] ==> k in keys
    ensures Unique(keys) ==> Unique(shuffled[..n])
  {
    assert |shuffled| == |multiset(shuffled)| == |keys|;
    forall k | k in shuffled[..n]
      ensures k in keys
    {
      assert k in multiset(shuffled);
    }
    if Unique(keys) {
      UniqueByMultiset(keys, shuffled);
    }
  }

  /** An integer within half of `b` of `a / b`, for `a` between 0 and `n * b`, lies between 0 and `n`. */
  lemma NearestInRange(a: int, b: int, n: nat, r: int)
    requires 0 < b && 0 <= a <= n * b && -b <= 2 * (r * b - a) <= b
    ensures 0 <= r <= n
  {
    if r > n {
      MulAtLeast(r - n, b);
    } else if r < 0 {
      MulAtLeast(-r, b);
    }
  }

  /** A share between none and all of `n` is between 0 and `n` times the denominator. */
  lemma ShareInRange(n: nat, num: int, den: int)
    requires 0 <= num <= den
    ensures 0 <= n * num <= n * den
  {
    if n > 0 {
      MulAtLeast(n, den - num);
      assert n * (den - num) == n * den - n * num;
      if num > 0 {
        MulAtLeast(n, num);
      }
    }
  }

  /** For a rate between 0 and 1 the subset has exactly the rounded size. */
  lemma RandomSubsetSize(keys: seq<int>, rate: Rate, shuffled: seq<int>)
    requires multiset(shuffled) == multiset(keys)
    requires 0 <= rate.num <= rate.den
    ensures |RandomSubset(keys, rate, shuffled)| == RoundHalfEven(|keys| * rate.num, rate.den)
  {
    ShareInRange(|keys|, rate.num, rate.den);
    NearestInRange(|keys| * rate.num, rate.den, |keys|, RoundHalfEven(|keys| * rate.num, rate.den));
  }

  /** Four patients at rate one half give a test set of two of their numbers. */
  lemma RandomSubsetFixture(keys: seq<int>, shuffled: seq<int>)
    requires |keys| == 4 && multiset(shuffled) == multiset(keys)
    ensures |RandomSubset(keys, Fraction(1, 2), shuffled)| == 2
    ensures forall k :: k in RandomSubset(keys, Fraction(1, 2), shuffled) ==> k in keys
  {
    assert RoundHalfEven(4, 2) == 2;
  }

  /** The simulation dates: `start`, then each date plus `step` months (`sim_date += relativedelta(months=+step)`), while before `end`. */
  function SimDates(start: Date, end: Date, step: nat): seq<Date>
    requires 1 <= step
    decreases Ord(end) - Ord(start)
  {
    if !Before(start, end) then []
    else
      AddMonthsAdvances(start, step);
      [start] + SimDates(AddMonths(start, step), end, step)
  }

  /**
   * The dates start at `start` when it is before `end` (and there are none
   * otherwise), and stop at the first step that reaches `end`.
   */
  lemma {:induction false} SimDatesEnds(start: Date, end: Date, step: nat)
    requires 1 <= step
    ensures var dates := SimDates(start, end, step);
            (|dates| > 0 <==> Before(start, end))
            && (|dates| > 0 ==> dates[0] == start && !Before(AddMonths(dates[|dates| - 1], step), end))
    decreases Ord(end) - Ord(start)
  {
    if Before(start, end) {
      var next := AddMonths(start, step);
      AddMonthsAdvances(start, step);
      SimDatesEnds(next, end, step);
      var rest := SimDates(next, end, step);
      var dates := SimDates(start, end, step);
      assert dates == [start] + rest;
      if rest != [] {
        assert dates[|dates| - 1] == rest[|rest| - 1];
      }
    }
  }

  /** Every date lies in [start, end) and never moves to a later day of the month than `start`'s. */
  lemma {:induction false} SimDatesInRange(start: Date, end: Date, step: nat, d: Date)
    requires 1 <= step && d in SimDates(start, end, step)
    ensures NotAfter(start, d) && Before(d, end) && d.day <= start.day
    decreases Ord(end) - Ord(start)
  {
    var next := AddMonths(start, step);
    AddMonthsAdvances(start, step);
    if d != start {
      assert d in SimDates(next, end, step);
      SimDatesInRange(next, end, step, d);
      StepThenNotAfter(start, next, d);
    }
  }

  /** A date before `b`, where `b` is not after `c`, is before `c` (and not after it). */
  lemma StepThenNotAfter(a: Date, b: Date, c: Date)
    requires Before(a, b) && NotAfter(b, c)
    ensures Before(a, c) && NotAfter(a, c)
  {
  }

  /** Each date is the previous one plus `step` months. */
  lemma {:induction false} SimDatesSteps(start: Date, end: Date, step: nat)
    requires 1 <= step
    ensures var dates := SimDates(start, end, step);
            forall i :: 0 <= i < |dates| - 1 ==> dates[i + 1] == AddMonths(dates[i], step)
    decreases Ord(end) - Ord(start)
  {
    if Before(start, end) {
      var next := AddMonths(start, step);
      AddMonthsAdvances(start, step);
      SimDatesSteps(next, end, step);
      SimDatesEnds(next, end, step);
      var rest := SimDates(next, end, step);
      var dates := SimDates(start, end, step);
      assert dates == [start] + rest;
      forall i | 0 <= i < |dates| - 1
        ensures dates[i + 1] == AddMonths(dates[i], step)
      {
        if i > 0 {
          assert dates[i] == rest[i - 1] && dates[i + 1] == rest[i];
        } else {
          assert dates[1] == rest[0];
        }
      }
    }
  }

  /** One instance of the steps: date `k + 1` is date `k` plus `step` months. */
  lemma SimDatesStepAt(start: Date, end: Date, step: nat, k: nat)
    requires 1 <= step && k + 1 < |SimDates(start, end, step)|
    ensures SimDates(start, end, step)[k + 1] == AddMonths(SimDates(start, end, step)[k], step)
  {
    SimDatesSteps(start, end, step);
  }

  /** The dates strictly increase. */
  lemma SimDatesIncrease(start: Date, end: Date, step: nat)
    requires 1 <= step
    ensures var dates := SimDates(start, end, step);
            forall i, j :: 0 <= i < j < |dates| ==> Before(dates[i], dates[j])
  {
    var dates := SimDates(start, end, step);
    var ords := seq(|dates|, k requires 0 <= k < |dates| => Ord(dates[k]));
    forall k | 0 <= k < |dates| - 1
      ensures ords[k] < ords[k + 1]
    {
      var d, e := dates[k], dates[k + 1];
      SimDatesStepAt(start, end, step, k);
      AddMonthsAdvances(d, step);
      assert ords[k] == Ord(d) && ords[k + 1] == Ord(e);
    }
    ChainIncreases(ords);
    forall i, j | 0 <= i < j < |dates|
      ensures Before(dates[i], dates[j])
    {
      assert ords[i] < ords[j];
    }
  }

  /** Numbers that increase from each to the next increase from each to every later one. */
  lemma {:induction false} ChainIncreases(xs: seq<int>)
    requires forall k :: 0 <= k < |xs| - 1 ==> xs[k] < xs[k + 1]
    ensures forall i, j :: 0 <= i < j < |xs| ==> xs[i] < xs[j]
  {
    if |xs| > 1 {
      var n := |xs| - 1;
      var init := xs[..n];
      ChainIncreases(init);
      forall i, j | 0 <= i < j < |xs|
        ensures xs[i] < xs[j]
      {
        if j < n {
          assert xs[i] == init[i] && xs[j] == init[j];
        } else if i < n - 1 {
          assert init[i] < init[n - 1];
        }
      }
    }
  }

  /** One more step of the loop: the remaining dates are the current one followed by those after it. */
  lemma SimDatesStep(start: Date, end: Date, step: nat, done: seq<Date>, simDate: Date)
    requires 1 <= step && Before(simDate, end)
    requires SimDates(start, end, step) == done + SimDates(simDate, end, step)
    ensures SimDates(start, end, step) == (done + [simDate]) + SimDates(AddMonths(simDate, step), end, step)
    ensures SimDates(start, end, step)[..|done| + 1] == done + [simDate]
  {
    AddMonthsAdvances(simDate, step);
    assert SimDates(simDate, end, step) == [simDate] + SimDates(AddMonths(simDate, step), end, step);
  }

  /** One value the generator yields: `(patient, sim_date, in_test_set)`. */
  datatype Emission = Emission(patient: Patient, date: Date, inTestSet: bool)

  /**
   * What tells the two generators apart: the list of numbers the test flag
   * is read from, whether a listed patient is in the test set or out of it,
   * and whether patients on B01 (antithrombotic) medication are excluded.
   */
  datatype Setup = Setup(listed: seq<int>, testWhenListed: bool, checkB01: bool)

  /** The test flag of patient number `nr`. */
  predicate InTestSet(setup: Setup, nr: int)
  {
    (nr in setup.listed) == setup.testWhenListed
  }

  /**
   * The exclusion test, evaluated left to right: not alive, no chronic
   * atrial fibrillation, last diagnosis more than 366 days ago, on B01.
   * None where `days_since_last_diagnosis` raises, which it is only asked
   * for a living patient with atrial fibrillation.
   */
  function Admitted(p: Patient, t: Date, checkB01: bool): (r: Option<bool>)
    ensures r.None? <==> p.queries.isAlive(t) && p.queries.hasDiseaseGroup(AtrialFib, t) && p.queries.daysSinceLastDiagnosis(t).None?
    ensures r == Some(true) <==>
              p.queries.isAlive(t) && p.queries.hasDiseaseGroup(AtrialFib, t)
              && p.queries.daysSinceLastDiagnosis(t).Some? && p.queries.daysSinceLastDiagnosis(t).value <= 366
              && !(checkB01 && p.queries.hasMedicationGroup("B01", t))
  {
    var q := p.queries;
    if !q.isAlive(t) || !q.hasDiseaseGroup(AtrialFib, t) then Some(false)
    else
      match q.daysSinceLastDiagnosis(t)
      case None => None
      case Some(days) => Some(days <= 366 && !(checkB01 && q.hasMedicationGroup("B01", t)))
  }

  /** The values yielded in the month `t`, patient by patient; None when the test raises for one of them. */
  function MonthEmissions(patients: Cohort, setup: Setup, t: Date): (r: Option<seq<Emission>>)
    ensures r.Some? ==> |r.value| <= |patients|
  {
    if patients == [] then Some([])
    else
      match MonthEmissions(patients[..|patients| - 1], setup, t)
      case None => None
      case Some(es) =>
        var (nr, p) := patients[|patients| - 1];
        match Admitted(p, t, setup.checkB01)
        case None => None
        case Some(admitted) => Some(es + (if admitted then [Emission(p, t, InTestSet(setup, nr))] else []))
  }

  /**
   * The values yielded over the given months, month after month; None once a
   * month raises. At most one value per patient and month.
   */
  function Emissions(patients: Cohort, setup: Setup, dates: seq<Date>): (r: Option<seq<Emission>>)
    ensures r.Some? ==> |r.value| <= |dates| * |patients|
  {
    if dates == [] then Some([])
    else
      match Emissions(patients, setup, dates[..|dates| - 1])
      case None => None
      case Some(es) =>
        match MonthEmissions(patients, setup, dates[|dates| - 1])
        case None => None
        case Some(ms) => Some(es + ms)
  }

  /**
   * A month raises exactly when the test raises for one of the patients;
   * otherwise it yields, with the month's date and the patient's fixed test
   * flag, exactly the admitted patients.
   */
  lemma {:induction false} MonthEmissionsMembers(patients: Cohort, setup: Setup, t: Date)
    ensures MonthEmissions(patients, setup, t).None?
            <==> exists k :: 0 <= k < |patients| && Admitted(patients[k].1, t, setup.checkB01).None?
    ensures MonthEmissions(patients, setup, t).Some? ==>
              forall e :: e in MonthEmissions(patients, setup, t).value
                <==> exists k :: 0 <= k < |patients| && Admitted(patients[k].1, t, setup.checkB01) == Some(true)
                                 && e == Emission(patients[k].1, t, InTestSet(setup, patients[k].0))
  {
    if patients != [] {
      var n := |patients| - 1;
      MonthEmissionsMembers(patients[..n], setup, t);
      assert forall k :: 0 <= k < n ==> patients[..n][k] == patients[k];
    }
  }

  /** Once the months so far raise, all of them do. */
  lemma {:induction false} MonthEmissionsNoneAfter(patients: Cohort, setup: Setup, t: Date, n: nat)
    requires n <= |patients| && MonthEmissions(patients[..n], setup, t).None?
    ensures MonthEmissions(patients, setup, t).None?
    decreases |patients| - n
  {
    if n < |patients| {
      assert patients[..n + 1][..n] == patients[..n];
      MonthEmissionsNoneAfter(patients, setup, t, n + 1);
    } else {
      assert patients[..n] == patients;
    }
  }

  /** Once the months so far raise, the whole run does. */
  lemma {:induction false} EmissionsNoneAfter(patients: Cohort, setup: Setup, dates: seq<Date>, n: nat)
    requires n <= |dates| && Emissions(patients, setup, dates[..n]).None?
    ensures Emissions(patients, setup, dates).None?
    decreases |dates| - n
  {
    if n < |dates| {
      assert dates[..n + 1][..n] == dates[..n];
      EmissionsNoneAfter(patients, setup, dates, n + 1);
    } else {
      assert dates[..n] == dates;
    }
  }

  /**
   * The run raises exactly when one of its months does; otherwise it yields
   * exactly what the months yield.
   */
  lemma {:induction false} EmissionsMembers(patients: Cohort, setup: Setup, dates: seq<Date>)
    ensures Emissions(patients, setup, dates).None?
            <==> exists i :: 0 <= i < |dates| && MonthEmissions(patients, setup, dates[i]).None?
    ensures Emissions(patients, setup, dates).Some? ==>
              forall e :: e in Emissions(patients, setup, dates).value
                <==> exists i :: 0 <= i < |dates| && MonthEmissions(patients, setup, dates[i]).Some?
                                 && e in MonthEmissions(patients, setup, dates[i]).value
  {
    if dates != [] {
      var n := |dates| - 1;
      EmissionsMembers(patients, setup, dates[..n]);
      assert forall i :: 0 <= i < n ==> dates[..n][i] == dates[i];
    }
  }

  /** Every value of a month carries that month's date. */
  lemma {:induction false} MonthEmissionsDated(patients: Cohort, setup: Setup, t: Date)
    requires MonthEmissions(patients, setup, t).Some?
    ensures forall i :: 0 <= i < |MonthEmissions(patients, setup, t).value| ==> MonthEmissions(patients, setup, t).value[i].date == t
  {
    if patients != [] {
      MonthEmissionsDated(patients[..|patients| - 1], setup, t);
    }
  }

  /** The values of more months: those of the earlier months, then those of the last one. */
  lemma EmissionsSnoc(patients: Cohort, setup: Setup, dates: seq<Date>, t: Date)
    ensures Emissions(patients, setup, dates + [t])
            == if Emissions(patients, setup, dates).None? || MonthEmissions(patients, setup, t).None? then None
               else Some(Emissions(patients, setup, dates).value + MonthEmissions(patients, setup, t).value)
  {
    assert (dates + [t])[..|dates|] == dates;
  }

  /** Every value carries one of the months' dates. */
  lemma {:induction false} EmissionDates(patients: Cohort, setup: Setup, dates: seq<Date>)
    requires Emissions(patients, setup, dates).Some?
    ensures forall i :: 0 <= i < |Emissions(patients, setup, dates).value| ==> Emissions(patients, setup, dates).value[i].date in dates
  {
    if dates != [] {
      var n := |dates| - 1;
      EmissionDates(patients, setup, dates[..n]);
      MonthEmissionsDated(patients, setup, dates[n]);
      var es: seq<Emission> := Emissions(patients, setup, dates[..n]).value;
      var ms: seq<Emission> := MonthEmissions(patients, setup, dates[n]).value;
      assert Emissions(patients, setup, dates).value == es + ms;
      forall i | 0 <= i < |es + ms|
        ensures (es + ms)[i].date in dates
      {
        if i < |es| {
          assert (es + ms)[i] == es[i];
          assert es[i].date in dates[..n];
        } else {
          assert (es + ms)[i] == ms[i - |es|];
        }
      }
    }
  }

  /** Months are the outer loop: over increasing months the yielded dates never go back. */
  lemma {:induction false} EmissionsInDateOrder(patients: Cohort, setup: Setup, dates: seq<Date>)
    requires forall i, j :: 0 <= i < j < |dates| ==> Before(dates[i], dates[j])
    requires Emissions(patients, setup, dates).Some?
    ensures var es := Emissions(patients, setup, dates).value;
            forall i, j :: 0 <= i < j < |es| ==> NotAfter(es[i].date, es[j].date)
  {
    if dates != [] {
      var n := |dates| - 1;
      var init := dates[..n];
      EmissionsInDateOrder(patients, setup, init);
      EmissionDates(patients, setup, init);
      MonthEmissionsDated(patients, setup, dates[n]);
      var es: seq<Emission> := Emissions(patients, setup, init).value;
      var ms: seq<Emission> := MonthEmissions(patients, setup, dates[n]).value;
      var all: seq<Emission> := es + ms;
      assert Emissions(patients, setup, dates).value == all;
      forall i, j | 0 <= i < j < |all|
        ensures NotAfter(all[i].date, all[j].date)
      {
        if j >= |es| {
          assert all[j] == ms[j - |es|];
          if i < |es| {
            assert all[i] == es[i];
            assert es[i].date in init;
          } else {
            assert all[i] == ms[i - |es|];
          }
        } else {
          assert all[i] == es[i] && all[j] == es[j];
        }
      }
    }
  }

  /** The values of one more patient: those of the earlier patients, then its own when admitted. */
  lemma MonthEmissionsSnoc(patients: Cohort, setup: Setup, t: Date, i: nat)
    requires i < |patients|
    ensures MonthEmissions(patients[..i + 1], setup, t)
            == if MonthEmissions(patients[..i], setup, t).None? || Admitted(patients[i].1, t, setup.checkB01).None? then None
               else Some(MonthEmissions(patients[..i], setup, t).value
                         + (if Admitted(patients[i].1, t, setup.checkB01).value then [Emission(patients[i].1, t, InTestSet(setup, patients[i].0))] else []))
  {
    assert patients[..i + 1][..i] == patients[..i];
  }

  /** The inner `for` loop of the generator for the month `t`. */
  method EmitMonth(patients: Cohort, setup: Setup, t: Date) returns (r: Option<seq<Emission>>)
    ensures r == MonthEmissions(patients, setup, t)
  {
    var out := [];
    for i := 0 to |patients|
      invariant MonthEmissions(patients[..i], setup, t) == Some(out)
    {
      MonthEmissionsSnoc(patients, setup, t, i);
      var (nr, p) := patients[i];
      if !p.queries.isAlive(t) || !p.queries.hasDiseaseGroup(AtrialFib, t) {
        assert Admitted(p, t, setup.checkB01) == Some(false);
        assert out + [] == out;
        continue;
      }
      var days := p.queries.daysSinceLastDiagnosis(t);
      if days.None? {
        MonthEmissionsNoneAfter(patients, setup, t, i + 1);
        return None;
      }
      if days.value > 366 || (setup.checkB01 && p.queries.hasMedicationGroup("B01", t)) {
        assert Admitted(p, t, setup.checkB01) == Some(false);
        assert out + [] == out;
        continue;
      }
      assert Admitted(p, t, setup.checkB01) == Some(true);
      out := out + [Emission(p, t, (nr in setup.listed) == setup.testWhenListed)];
    }
    assert patients[..|patients|] == patients;
    return Some(out);
  }

  /** The month loop of the generator: all values yielded from `start` until `end`, or None when it raises. */
  method Generate(patients: Cohort, setup: Setup, start: Date, end: Date, step: nat) returns (r: Option<seq<Emission>>)
    requires 1 <= step
    ensures r == Emissions(patients, setup, SimDates(start, end, step))
  {
    var simDate := start;
    var out := [];
    ghost var done: seq<Date> := [];
    while Before(simDate, end)
      invariant SimDates(start, end, step) == done + SimDates(simDate, end, step)
      invariant Emissions(patients, setup, done) == Some(out)
      decreases Ord(end) - Ord(simDate)
    {
      var month := EmitMonth(patients, setup, simDate);
      SimDatesStep(start, end, step, done, simDate);
      EmissionsSnoc(patients, setup, done, simDate);
      if month.None? {
        EmissionsNoneAfter(patients, setup, SimDates(start, end, step), |done| + 1);
        return None;
      }
      out := out + month.value;
      done := done + [simDate];
      AddMonthsAdvances(simDate, step);
      simDate := AddMonths(simDate, step);
    }
    assert done + [] == done;
    return Some(out);
  }

  /**
   * `patient_month_generator(start, end, patients, step, test_rate)`: the
   * test set drawn once, then every month from `start` the admitted patients
   * in dict order, each flagged by its membership in the test set.
   */
  method PatientMonthGenerator(start: Date, end: Date, patients: Cohort, step: nat, testRate: Rate, shuffled: seq<int>)
    returns (r: Option<seq<Emission>>)
    requires 1 <= step && multiset(shuffled) == multiset(Keys(patients))
    ensures r == Emissions(patients, Setup(RandomSubset(Keys(patients), testRate, shuffled), true, true), SimDates(start, end, step))
  {
    var testSet := RandomSubset(Keys(patients), testRate, shuffled);
    r := Generate(patients, Setup(testSet, true, true), start, end, step);
  }

  /** The label `should_have_AC(t, future_stroke, {"months": 12})`: `t` lies in a recorded stroke's window. */
  predicate StrokeLabel(p: Patient, t: Date)
  {
    exists i :: 0 <= i < |p.queries.strokes| && InStrokeWindow(p.queries.strokes[i], t)
  }

  /**
   * The vector of `add_feature_slice`: a chronic presence flag per disease,
   * then per disease the days since its diagnosis where the flag is set and
   * 0 elsewhere, then the female flag and the age.
   */
  function FeatureVector(diseases: seq<Disease>, p: Patient, t: Date): (v: seq<int>)
    reads p
    ensures |v| == 2 * |diseases| + 2
  {
    var n := |diseases|;
    var lists := p.diagnoses;
    var flags := seq(n, i requires 0 <= i < n => Flag(HasDisease(lists, diseases[i].Id(), t, true)));
    var days := seq(n, i requires 0 <= i < n => if flags[i] == 1 then p.queries.daysSinceDiagnosis(diseases[i], t) else 0);
    flags + days + [Flag(IsFemale(p.sex)), CalculateAge(p.birthDate, t)]
  }

  /**
   * The layout of the vector: entry `i` flags disease `i` as present (chronic
   * diagnoses count after their end); entry `n + i` holds the days since its
   * diagnosis where the flag is set and 0 elsewhere; the female flag and the
   * age close the vector.
   */
  lemma FeatureVectorLayout(diseases: seq<Disease>, p: Patient, t: Date)
    ensures var v := FeatureVector(diseases, p, t);
            (forall i :: 0 <= i < |diseases| ==> v[i] == Flag(HasDisease(p.diagnoses, diseases[i].Id(), t, true)))
            && (forall i :: 0 <= i < |diseases| ==>
                  v[|diseases| + i] == if v[i] == 1 then p.queries.daysSinceDiagnosis(diseases[i], t) else 0)
            && v[2 * |diseases|] == Flag(IsFemale(p.sex)) && v[2 * |diseases| + 1] == CalculateAge(p.birthDate, t)
  {
  }

  /** `Data Labels`: the disease names, the same names after "days since ", then "Gender" and "Age". */
  function FeatureLabels(diseases: seq<Disease>): (labels: seq<string>)
    ensures |labels| == 2 * |diseases| + 2
    ensures forall i :: 0 <= i < |diseases| ==> labels[i] == Repr(diseases[i]) && labels[|diseases| + i] == "days since " + Repr(diseases[i])
    ensures labels[2 * |diseases|] == "Gender" && labels[2 * |diseases| + 1] == "Age"
  {
    var n := |diseases|;
    seq(n, i requires 0 <= i < n => Repr(diseases[i])) + seq(n, i requires 0 <= i < n => "days since " + Repr(diseases[i])) + ["Gender", "Age"]
  }

  /** The labels name the vector's entries one for one, whatever the patient and the date. */
  lemma LabelsMatchVector(diseases: seq<Disease>, p: Patient, t: Date)
    ensures |FeatureLabels(diseases)| == |FeatureVector(diseases, p, t)|
  {
  }

  /** The dict `{"Data": [], "Target": [], "Data Labels": []}` that `add_feature_slice` appends to. */
  class FeatureData {
    var data: seq<seq<int>>
    var target: seq<bool>
    var labels: seq<string>

    /** One target per vector. */
    ghost predicate Valid()
      reads this
    {
      |data| == |target|
    }

    constructor ()
      ensures Valid() && data == [] && target == [] && labels == []
    {
      data, target, labels := [], [], [];
    }
  }

  /**
   * `add_feature_slice(data, diseases, patient, sim_date)`: one vector and
   * its stroke label appended, and the labels set while they are shorter
   * than the vector.
   */
  method AddFeatureSlice(data: FeatureData, diseases: seq<Disease>, p: Patient, t: Date)
    requires data.Valid()
    modifies data
    ensures data.Valid()
    ensures data.data == old(data.data) + [FeatureVector(diseases, p, t)]
    ensures data.target == old(data.target) + [StrokeLabel(p, t)]
    ensures data.labels == if |old(data.labels)| < 2 * |diseases| + 2 then FeatureLabels(diseases) else old(data.labels)
  {
    var vector := FeatureVector(diseases, p, t);
    data.data := data.data + [vector];
    var stroke := FutureStroke(p, t, 12);
    data.target := data.target + [stroke];
    if |data.labels| < |vector| {
      data.labels := FeatureLabels(diseases);
    }
  }

  /** The patients of the values, in order. */
  function PatientsOf(es: seq<Emission>): (ps: seq<Patient>)
    ensures |ps| == |es| && forall i :: 0 <= i < |es| ==> ps[i] == es[i].patient
  {
    if es == [] then [] else PatientsOf(es[..|es| - 1]) + [es[|es| - 1].patient]
  }

  /** The vectors of the values, in order. */
  function Vectors(diseases: seq<Disease>, es: seq<Emission>): (vs: seq<seq<int>>)
    reads PatientsOf(es)
    ensures |vs| == |es|
  {
    if es == [] then []
    else
      var n := |es| - 1;
      Vectors(diseases, es[..n]) + [FeatureVector(diseases, es[n].patient, es[n].date)]
  }

  /** The stroke labels of the values, in order. */
  function Targets(es: seq<Emission>): (ys: seq<bool>)
    ensures |ys| == |es|
  {
    if es == [] then [] else Targets(es[..|es| - 1]) + [StrokeLabel(es[|es| - 1].patient, es[|es| - 1].date)]
  }

  /** One more value adds its vector and its label. */
  lemma FeatureSnoc(diseases: seq<Disease>, es: seq<Emission>, e: Emission)
    ensures Vectors(diseases, es + [e]) == Vectors(diseases, es) + [FeatureVector(diseases, e.patient, e.date)]
    ensures Targets(es + [e]) == Targets(es) + [StrokeLabel(e.patient, e.date)]
  {
    assert (es + [e])[..|es|] == es;
  }

  /** The values flagged for the test set (`inTest`) or for the learn set. */
  function Part(es: seq<Emission>, inTest: bool): seq<Emission>
  {
    if es == [] then []
    else Part(es[..|es| - 1], inTest) + (if es[|es| - 1].inTestSet == inTest then [es[|es| - 1]] else [])
  }

  /** Every value goes to exactly one of the two sets. */
  lemma {:induction false} PartSizes(es: seq<Emission>)
    ensures |Part(es, true)| + |Part(es, false)| == |es|
  {
    if es != [] {
      PartSizes(es[..|es| - 1]);
    }
  }

  /** The dict after `add_feature_slice` for each of the values in order, starting empty. */
  ghost predicate Filled(data: FeatureData, diseases: seq<Disease>, es: seq<Emission>)
    reads data, PatientsOf(es)
  {
    data.Valid() && data.data == Vectors(diseases, es) && data.target == Targets(es)
    && data.labels == if es == [] then [] else FeatureLabels(diseases)
  }

  /** One more value for `data`: the dict of the values so far, followed by it. */
  lemma PartSnoc(es: seq<Emission>, i: nat, inTest: bool)
    requires i < |es|
    ensures Part(es[..i + 1], inTest) == Part(es[..i], inTest) + (if es[i].inTestSet == inTest then [es[i]] else [])
  {
    assert es[..i + 1][..i] == es[..i];
  }

  /** Appending the slice of one value to a filled dict fills it with one more value. */
  method AddValue(data: FeatureData, diseases: seq<Disease>, ghost es: seq<Emission>, e: Emission)
    requires Filled(data, diseases, es)
    modifies data
    ensures Filled(data, diseases, es + [e])
  {
    AddFeatureSlice(data, diseases, e.patient, e.date);
    FeatureSnoc(diseases, es, e);
    ghost var ps: seq<object> := PatientsOf(es);
    assert data !in ps;
  }

  /**
   * `simulate_predictor(patients, diseases, start, end)`: the generator with
   * its defaults (monthly steps, test rate 0.20), each value's slice added to
   * the test data when flagged and to the learn data otherwise.
   */
  method SimulatePredictor(patients: Cohort, diseases: seq<Disease>, start: Date, end: Date, shuffled: seq<int>)
    returns (r: Option<(FeatureData, FeatureData)>)
    requires multiset(shuffled) == multiset(Keys(patients))
    ensures var es := Emissions(patients, Setup(RandomSubset(Keys(patients), Fraction(1, 5), shuffled), true, true), SimDates(start, end, 1));
            (r.Some? <==> es.Some?)
            && (r.Some? ==> fresh(r.value.0) && fresh(r.value.1) && r.value.0 != r.value.1
                            && Filled(r.value.0, diseases, Part(es.value, false)) && Filled(r.value.1, diseases, Part(es.value, true)))
  {
    var g := PatientMonthGenerator(start, end, patients, 1, Fraction(1, 5), shuffled);
    if g.None? {
      return None;
    }
    var es := g.value;
    var learn := new FeatureData();
    var test := new FeatureData();
    for i := 0 to |es|
      invariant Filled(learn, diseases, Part(es[..i], false)) && Filled(test, diseases, Part(es[..i], true))
    {
      Route(learn, test, diseases, es, i);
    }
    assert es[..|es|] == es;
    return Some((learn, test));
  }

  /** One pass of the loop of `simulate_predictor`: the value goes to the test data when flagged, else to the learn data. */
  method Route(learn: FeatureData, test: FeatureData, diseases: seq<Disease>, es: seq<Emission>, i: nat)
    requires i < |es| && learn != test
    requires Filled(learn, diseases, Part(es[..i], false)) && Filled(test, diseases, Part(es[..i], true))
    modifies learn, test
    ensures Filled(learn, diseases, Part(es[..i + 1], false)) && Filled(test, diseases, Part(es[..i + 1], true))
  {
    PartSnoc(es, i, true);
    PartSnoc(es, i, false);
    if es[i].inTestSet {
      SendTo(test, learn, diseases, Part(es[..i], true), Part(es[..i], false), es[i]);
      assert Part(es[..i], false) + [] == Part(es[..i], false);
    } else {
      SendTo(learn, test, diseases, Part(es[..i], false), Part(es[..i], true), es[i]);
      assert Part(es[..i], true) + [] == Part(es[..i], true);
    }
  }

  /** Adding a value to one dict leaves the other, filled with other values, as it was. */
  method SendTo(data: FeatureData, other: FeatureData, diseases: seq<Disease>, ghost es: seq<Emission>, ghost otherEs: seq<Emission>,
                e: Emission)
    requires data != other && Filled(data, diseases, es) && Filled(other, diseases, otherEs)
    modifies data
    ensures Filled(data, diseases, es + [e]) && Filled(other, diseases, otherEs)
  {
    ghost var otherPatients: seq<object> := PatientsOf(otherEs);
    assert data !in otherPatients;
    ghost var filled := Filled(other, diseases, otherEs);
    AddValue(data, diseases, es, e);
    assert filled == Filled(other, diseases, otherEs);
  }

  /** The values `simulate_chads_vasc` keeps: all of them, or only the test set's. */
  function Chosen(es: seq<Emission>, onlyTestSet: bool): seq<Emission>
  {
    if onlyTestSet then Part(es, true) else es
  }

  /** The threshold decisions (score at least 3) of the values as 0/1. */
  function Decisions(es: seq<Emission>): (xs: seq<int>)
    reads PatientsOf(es)
    ensures |xs| == |es|
  {
    if es == [] then []
    else
      var n := |es| - 1;
      Decisions(es[..n]) + [Flag(ChadsVascDecision(es[n].patient, es[n].date, 3))]
  }

  /** The stroke labels of the values as 0/1. */
  function StrokeFlags(es: seq<Emission>): (ys: seq<int>)
    ensures |ys| == |es|
    ensures forall i :: 0 <= i < |es| ==> ys[i] == Flag(Targets(es)[i])
  {
    if es == [] then []
    else
      var n := |es| - 1;
      assert Targets(es) == Targets(es[..n]) + [StrokeLabel(es[n].patient, es[n].date)];
      StrokeFlags(es[..n]) + [Flag(StrokeLabel(es[n].patient, es[n].date))]
  }

  /** One more value adds its decision and its label. */
  lemma ThresholdSnoc(es: seq<Emission>, e: Emission)
    ensures Decisions(es + [e]) == Decisions(es) + [Flag(ChadsVascDecision(e.patient, e.date, 3))]
    ensures StrokeFlags(es + [e]) == StrokeFlags(es) + [Flag(StrokeLabel(e.patient, e.date))]
  {
    assert (es + [e])[..|es|] == es;
  }

  /** The values kept from one more value: those kept so far, and the new one unless only the test set is kept and it is not in it. */
  lemma ChosenSnoc(es: seq<Emission>, i: nat, onlyTestSet: bool)
    requires i < |es|
    ensures Chosen(es[..i + 1], onlyTestSet)
            == Chosen(es[..i], onlyTestSet) + (if onlyTestSet && !es[i].inTestSet then [] else [es[i]])
  {
    PartSnoc(es, i, true);
    assert es[..i + 1] == es[..i] + [es[i]];
  }

  /** The loop of `simulate_chads_vasc` over the values: a decision and a label per kept value. */
  method ThresholdRows(es: seq<Emission>, onlyTestSet: bool) returns (x: seq<int>, y: seq<int>)
    ensures x == Decisions(Chosen(es, onlyTestSet)) && y == StrokeFlags(Chosen(es, onlyTestSet))
    ensures |x| == |y| == |Chosen(es, onlyTestSet)|
  {
    x, y := [], [];
    for i := 0 to |es|
      invariant x == Decisions(Chosen(es[..i], onlyTestSet)) && y == StrokeFlags(Chosen(es[..i], onlyTestSet))
    {
      x, y := ThresholdStep(es, i, onlyTestSet, x, y);
    }
    assert es[..|es|] == es;
  }

  /** One pass of the loop: a value outside the test set is skipped when only the test set is kept. */
  method ThresholdStep(es: seq<Emission>, i: nat, onlyTestSet: bool, x: seq<int>, y: seq<int>) returns (x': seq<int>, y': seq<int>)
    requires i < |es| && x == Decisions(Chosen(es[..i], onlyTestSet)) && y == StrokeFlags(Chosen(es[..i], onlyTestSet))
    ensures x' == Decisions(Chosen(es[..i + 1], onlyTestSet)) && y' == StrokeFlags(Chosen(es[..i + 1], onlyTestSet))
  {
    ghost var kept := Chosen(es[..i], onlyTestSet);
    ChosenSnoc(es, i, onlyTestSet);
    if onlyTestSet && !es[i].inTestSet {
      assert kept + [] == kept;
      return x, y;
    }
    x', y' := AddRow(kept, x, y, es[i]);
  }

  /** One kept value: its threshold decision and its stroke label appended. */
  method AddRow(ghost kept: seq<Emission>, x: seq<int>, y: seq<int>, e: Emission) returns (x': seq<int>, y': seq<int>)
    requires x == Decisions(kept) && y == StrokeFlags(kept)
    ensures x' == Decisions(kept + [e]) && y' == StrokeFlags(kept + [e])
  {
    ThresholdSnoc(kept, e);
    x' := x + [Flag(ChadsVascDecision(e.patient, e.date, 3))];
    y' := y + [Flag(StrokeLabel(e.patient, e.date))];
  }

  /**
   * `simulate_chads_vasc(patients, start, end, only_test_set)`: the
   * generator with its defaults, then per kept value the threshold decision
   * as `Data` and the stroke label as `Target`.
   */
  method SimulateChadsVasc(patients: Cohort, start: Date, end: Date, onlyTestSet: bool, shuffled: seq<int>)
    returns (r: Option<(seq<int>, seq<int>)>)
    requires multiset(shuffled) == multiset(Keys(patients))
    ensures var es := Emissions(patients, Setup(RandomSubset(Keys(patients), Fraction(1, 5), shuffled), true, true), SimDates(start, end, 1));
            (r.Some? <==> es.Some?)
            && (r.Some? ==> r.value.0 == Decisions(Chosen(es.value, onlyTestSet)) && r.value.1 == StrokeFlags(Chosen(es.value, onlyTestSet))
                            && |r.value.0| == |r.value.1|)
  {
    var g := PatientMonthGenerator(start, end, patients, 1, Fraction(1, 5), shuffled);
    if g.None? {
      return None;
    }
    var x, y := ThresholdRows(g.value, onlyTestSet);
    return Some((x, y));
  }
}
