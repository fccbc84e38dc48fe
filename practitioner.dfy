/**
 * The practitioner analysis of practitioner.py: month bins between two
 * dates, the practitioners and (patient, diagnosis) pairs of a cohort, and
 * the sweep that counts, per practitioner and bin, the diagnoses by
 * CHA2DS2-VASc score and whether a medication followed. The sweep walks the
 * pairs in start-date order with a bin index that only moves forward.
 */
module Practitioner {
  import opened Wrappers
  import opened Dates
  import opened Diseases
  import opened Diagnoses
  import opened StableSort
  import opened Patients
  import opened MedicationRates
  import opened Timeline

  // Month bins

  /** The bins `get_month_bins` builds from `cur` on: `cur`, then one step further while still before `end`. */
  function MonthBins(cur: Date, end: Date, size: nat): (bins: seq<Date>)
    requires 1 <= size
    ensures 1 <= |bins| && bins[0] == cur && !Before(bins[|bins| - 1], end)
    decreases Ord(end) - Ord(cur)
  {
    if Before(cur, end) then
      AddMonthsAdvances(cur, size);
      [cur] + MonthBins(AddMonths(cur, size), end, size)
    else [cur]
  }

  /** Day numbers strictly increase. */
  predicate StrictlyIncreasing(days: seq<int>)
  {
    forall i, j :: 0 <= i < j < |days| ==> days[i] < days[j]
  }

  /** The day numbers of the bins. */
  function DayNumbers(bins: seq<Date>): (days: seq<int>)
    ensures |days| == |bins|
  {
    seq(|bins|, i requires 0 <= i < |bins| => Ord(bins[i]))
  }

  /** Entry `i` of the day numbers is the day number of bin `i`. */
  lemma DayNumbersAt(bins: seq<Date>)
    ensures forall i :: 0 <= i < |bins| ==> DayNumbers(bins)[i] == Ord(bins[i])
  {
  }

  /** Bins strictly increase. */
  predicate Increasing(bins: seq<Date>)
  {
    StrictlyIncreasing(DayNumbers(bins))
  }

  /**
   * The bins start at `start` and step by `size` months; every bin but the
   * last is before `end`, the last is not, and they strictly increase.
   */
  lemma {:induction false} MonthBinsShape(cur: Date, end: Date, size: nat)
    requires 1 <= size
    ensures var bins := MonthBins(cur, end, size);
            1 <= |bins| && bins[0] == cur
            && (forall i :: 0 <= i < |bins| - 1 ==> bins[i + 1] == AddMonths(bins[i], size) && Before(bins[i], end))
            && !Before(bins[|bins| - 1], end)
    decreases Ord(end) - Ord(cur)
  {
    if Before(cur, end) {
      var next := AddMonths(cur, size);
      assert Ord(cur) < Ord(next) by {
        AddMonthsAdvances(cur, size);
      }
      MonthBinsShape(next, end, size);
      var rest := MonthBins(next, end, size);
      assert MonthBins(cur, end, size) == [cur] + rest;
    }
  }

  /** The bins strictly increase. */
  lemma {:induction false} MonthBinsIncreasing(cur: Date, end: Date, size: nat)
    requires 1 <= size
    ensures Increasing(MonthBins(cur, end, size))
    decreases Ord(end) - Ord(cur)
  {
    if Before(cur, end) {
      var next := AddMonths(cur, size);
      assert Ord(cur) < Ord(next) by {
        AddMonthsAdvances(cur, size);
      }
      MonthBinsIncreasing(next, end, size);
      var rest := MonthBins(next, end, size);
      assert MonthBins(cur, end, size) == [cur] + rest;
      assert rest[0] == next by {
        MonthBinsShape(next, end, size);
      }
      DayNumbersPrepend(cur, rest);
      PrependIncreasing(Ord(cur), DayNumbers(rest));
    }
  }

  /** The day numbers of `[d] + rest`. */
  lemma DayNumbersPrepend(d: Date, rest: seq<Date>)
    ensures DayNumbers([d] + rest) == [Ord(d)] + DayNumbers(rest)
  {
  }

  /** Putting a smaller day in front of an increasing sequence keeps it increasing. */
  lemma PrependIncreasing(d: int, days: seq<int>)
    requires StrictlyIncreasing(days) && (|days| > 0 ==> d < days[0])
    ensures StrictlyIncreasing([d] + days)
  {
    forall i, j | 0 <= i < j < |days| + 1
      ensures ([d] + days)[i] < ([d] + days)[j]
    {
      if i == 0 && j > 1 {
        assert days[0] < days[j - 1];
      }
    }
  }

  /** `get_month_bins(start, end, bin_size)`; a step below one month would never reach `end`. */
  method GetMonthBins(start: Date, end: Date, binSize: int) returns (bins: seq<Date>)
    requires 1 <= binSize
    ensures bins == MonthBins(start, end, binSize)
  {
    bins := [];
    var cur := start;
    while Before(cur, end)
      invariant bins + MonthBins(cur, end, binSize) == MonthBins(start, end, binSize)
      decreases Ord(end) - Ord(cur)
    {
      var next := AddMonths(cur, binSize);
      MonthBinsStep(cur, end, binSize);
      assert bins + MonthBins(cur, end, binSize) == (bins + [cur]) + MonthBins(next, end, binSize);
      bins := bins + [cur];
      cur := next;
    }
    assert MonthBins(cur, end, binSize) == [cur];
    bins := bins + [cur];
  }

  /** While `cur` is before `end`, the bins are `cur` followed by the bins from one step later. */
  lemma MonthBinsStep(cur: Date, end: Date, size: nat)
    requires 1 <= size && Before(cur, end)
    ensures Ord(cur) < Ord(AddMonths(cur, size))
    ensures MonthBins(cur, end, size) == [cur] + MonthBins(AddMonths(cur, size), end, size)
  {
    AddMonthsAdvances(cur, size);
  }

  /**
   * The bins are the only chain that starts at its first date, steps by
   * `size` months while before `end`, and ends at the first date that is not.
   */
  lemma {:induction false} MonthBinsOfChain(b: seq<Date>, end: Date, size: nat)
    requires 1 <= size && 1 <= |b|
    requires forall i :: 0 <= i < |b| - 1 ==> Before(b[i], end) && AddMonths(b[i], size) == b[i + 1]
    requires !Before(b[|b| - 1], end)
    ensures MonthBins(b[0], end, size) == b
  {
    if |b| > 1 {
      MonthBinsOfChain(b[1..], end, size);
      assert b == [b[0]] + b[1..];
    }
  }

  /** The bins of the month-bin test, all but the last before its end date. */
  lemma FixtureBinsBeforeEnd(b: seq<Date>, end: Date)
    requires b == [CalendarDate(2010, 1, 1), CalendarDate(2010, 4, 1), CalendarDate(2010, 7, 1), CalendarDate(2010, 10, 1), CalendarDate(2011, 1, 1), CalendarDate(2011, 4, 1), CalendarDate(2011, 7, 1), CalendarDate(2011, 10, 1), CalendarDate(2012, 1, 1), CalendarDate(2012, 4, 1)]
    requires end == CalendarDate(2012, 2, 1)
    ensures forall i :: 0 <= i < 9 ==> Before(b[i], end)
    ensures !Before(b[9], end)
  {
    assert Ord(end) == 734534 && Ord(b[9]) == 734594;
    forall i | 0 <= i < 9
      ensures Before(b[i], end)
    {
      if i == 0 {
        assert Ord(b[0]) == 733773;
      } else if i == 1 {
        assert Ord(b[1]) == 733863;
      } else if i == 2 {
        assert Ord(b[2]) == 733954;
      } else if i == 3 {
        assert Ord(b[3]) == 734046;
      } else if i == 4 {
        assert Ord(b[4]) == 734138;
      } else if i == 5 {
        assert Ord(b[5]) == 734228;
      } else if i == 6 {
        assert Ord(b[6]) == 734319;
      } else if i == 7 {
        assert Ord(b[7]) == 734411;
      } else if i == 8 {
        assert Ord(b[8]) == 734503;
      }
    }
  }

  /** The bins of the month-bin test, each three months after the one before. */
  lemma FixtureBinsStep(b: seq<Date>)
    requires b == [CalendarDate(2010, 1, 1), CalendarDate(2010, 4, 1), CalendarDate(2010, 7, 1), CalendarDate(2010, 10, 1), CalendarDate(2011, 1, 1), CalendarDate(2011, 4, 1), CalendarDate(2011, 7, 1), CalendarDate(2011, 10, 1), CalendarDate(2012, 1, 1), CalendarDate(2012, 4, 1)]
    ensures forall i :: 0 <= i < 9 ==> AddMonths(b[i], 3) == b[i + 1]
  {
    forall i | 0 <= i < 9
      ensures AddMonths(b[i], 3) == b[i + 1]
    {
      if i == 0 {
        assert AddMonths(b[0], 3) == b[1];
      } else if i == 1 {
        assert AddMonths(b[1], 3) == b[2];
      } else if i == 2 {
        assert AddMonths(b[2], 3) == b[3];
      } else if i == 3 {
        assert AddMonths(b[3], 3) == b[4];
      } else if i == 4 {
        assert AddMonths(b[4], 3) == b[5];
      } else if i == 5 {
        assert AddMonths(b[5], 3) == b[6];
      } else if i == 6 {
        assert AddMonths(b[6], 3) == b[7];
      } else if i == 7 {
        assert AddMonths(b[7], 3) == b[8];
      } else if i == 8 {
        assert AddMonths(b[8], 3) == b[9];
      }
    }
  }

  /** The month-bin test: 2010-01-01 to 2012-02-01 by three months gives ten bins ending 2012-04-01. */
  lemma MonthBinsFixture()
    ensures MonthBins(CalendarDate(2010, 1, 1), CalendarDate(2012, 2, 1), 3) == [CalendarDate(2010, 1, 1), CalendarDate(2010, 4, 1), CalendarDate(2010, 7, 1), CalendarDate(2010, 10, 1), CalendarDate(2011, 1, 1), CalendarDate(2011, 4, 1), CalendarDate(2011, 7, 1), CalendarDate(2011, 10, 1), CalendarDate(2012, 1, 1), CalendarDate(2012, 4, 1)]
  {
    var b: seq<Date> := [CalendarDate(2010, 1, 1), CalendarDate(2010, 4, 1), CalendarDate(2010, 7, 1), CalendarDate(2010, 10, 1), CalendarDate(2011, 1, 1), CalendarDate(2011, 4, 1), CalendarDate(2011, 7, 1), CalendarDate(2011, 10, 1), CalendarDate(2012, 1, 1), CalendarDate(2012, 4, 1)];
    FixtureBinsBeforeEnd(b, CalendarDate(2012, 2, 1));
    FixtureBinsStep(b);
    MonthBinsOfChain(b, CalendarDate(2012, 2, 1), 3);
  }

  // Binning

  /**
   * The bin the sweep's index settles on for day `t`, scanning from `i`: the
   * first bin whose upper edge `edges[i + 1]` is not before `t`.
   */
  function BinFrom(edges: seq<int>, t: int, i: nat): (k: nat)
    requires i + 1 < |edges| && t <= edges[|edges| - 1]
    ensures i <= k && k + 1 < |edges| && t <= edges[k + 1]
    ensures forall j :: i < j <= k ==> edges[j] < t
    decreases |edges| - i
  {
    if t <= edges[i + 1] then i else BinFrom(edges, t, i + 1)
  }

  /** The bin of date `t`: scanned from the first bin. */
  function BinIndex(bins: seq<Date>, t: Date): (b: nat)
    requires 2 <= |bins| && NotAfter(t, bins[|bins| - 1])
    ensures b + 1 < |bins| && NotAfter(t, bins[b + 1]) && (b == 0 || Before(bins[b], t))
  {
    DayNumbersAt(bins);
    BinFrom(DayNumbers(bins), Ord(t), 0)
  }

  /** The scan stops at the first edge not before `t`, wherever it starts below that edge. */
  lemma BinFromIs(edges: seq<int>, t: int, i: nat, k: nat)
    requires i <= k && k + 1 < |edges| && t <= edges[|edges| - 1]
    requires t <= edges[k + 1] && forall j :: i < j <= k ==> edges[j] < t
    ensures BinFrom(edges, t, i) == k
    decreases k - i
  {
    if i < k {
      BinFromIs(edges, t, i + 1, k);
    }
  }

  /** On day numbers: a day equal to edge `k` settles in bin `k - 1`. */
  lemma EdgeGoesToPreviousBin(edges: seq<int>, k: nat)
    requires 1 <= k < |edges| && StrictlyIncreasing(edges)
    ensures edges[k] <= edges[|edges| - 1] && BinFrom(edges, edges[k], 0) == k - 1
  {
    BinFromIs(edges, edges[k], 0, k - 1);
  }

  /** A date exactly on the boundary `bins[k]` (`k` at least 1) is counted in the preceding bin `k - 1`. */
  lemma BoundaryGoesToPreviousBin(bins: seq<Date>, k: nat)
    requires 1 <= k < |bins| && Increasing(bins)
    ensures NotAfter(bins[k], bins[|bins| - 1]) && BinIndex(bins, bins[k]) == k - 1
  {
    EdgeGoesToPreviousBin(DayNumbers(bins), k);
  }

  /** The bin index never decreases along dates: what lets the sweep move it forward only. */
  lemma BinIndexMonotone(bins: seq<Date>, t1: Date, t2: Date)
    requires 2 <= |bins| && NotAfter(t1, t2) && NotAfter(t2, bins[|bins| - 1])
    ensures BinIndex(bins, t1) <= BinIndex(bins, t2)
  {
  }

  /** `tup[1]` as the sort key: diagnoses compare by start date. */
  function TupleStart(tp: (Patient, Diagnosis)): int
  {
    Ord(tp.1.start)
  }

  // The sweep, on day numbers

  /** What the sweep's filters look at in a tuple: the practitioner and the start date's day number. */
  datatype Item = Item(practitioner: Option<string>, day: int)

  function ItemOf(tp: (Patient, Diagnosis)): Item
  {
    Item(tp.1.practitioner, Ord(tp.1.start))
  }

  /** The items of the tuples, in order. */
  function Items(tuples: seq<(Patient, Diagnosis)>): (items: seq<Item>)
    ensures |items| == |tuples| && forall j :: 0 <= j < |tuples| ==> items[j] == ItemOf(tuples[j])
  {
    seq(|tuples|, j requires 0 <= j < |tuples| => ItemOf(tuples[j]))
  }

  /**
   * What the sweep records for a counted diagnosis: the patient's score on
   * its start date, and whether a medication of the group starting with
   * `medsStartWith` is taken on that day or the next.
   */
  function Observation(tp: (Patient, Diagnosis), medsStartWith: string): (int, bool)
    reads tp.0
  {
    var (p, d) := tp;
    (p.Score(d.start),
     p.queries.hasMedicationGroup(medsStartWith, d.start) || p.queries.hasMedicationGroup(medsStartWith, NextDay(d.start)))
  }

  /** The observations of all tuples, in order; the sweep uses those it counts. */
  function Observations(tuples: seq<(Patient, Diagnosis)>, medsStartWith: string): (obs: seq<(int, bool)>)
    reads set j | 0 <= j < |tuples| :: tuples[j].0
    ensures |obs| == |tuples|
  {
    seq(|tuples|, j reads set j | 0 <= j < |tuples| :: tuples[j].0 requires 0 <= j < |tuples| => Observation(tuples[j], medsStartWith))
  }

  /** The item passes the practitioner and start filters (`startDay` is the day number of `start`). */
  predicate Eligible(it: Item, practitioners: set<string>, startDay: int)
  {
    it.practitioner.Some? && it.practitioner.value in practitioners && startDay <= it.day
  }

  /** The sweep updates a rate for this item: it passes the filters and is not after `end`. */
  predicate Counted(it: Item, practitioners: set<string>, startDay: int, endDay: int)
  {
    Eligible(it, practitioners, startDay) && it.day <= endDay
  }

  /** The sweep breaks at this item: it passes the filters but is after `end`. */
  predicate Stops(it: Item, practitioners: set<string>, startDay: int, endDay: int)
  {
    Eligible(it, practitioners, startDay) && endDay < it.day
  }

  /** The index of the item the sweep breaks at, or the length when it runs to the end. */
  function StopIndex(items: seq<Item>, practitioners: set<string>, startDay: int, endDay: int): (n: nat)
    ensures n <= |items|
    ensures forall j :: 0 <= j < n ==> !Stops(items[j], practitioners, startDay, endDay)
    ensures n < |items| ==> Stops(items[n], practitioners, startDay, endDay)
  {
    if items == [] then 0
    else if Stops(items[0], practitioners, startDay, endDay) then 0
    else
      var n := StopIndex(items[1..], practitioners, startDay, endDay);
      assert forall j :: 1 <= j < n + 1 ==> items[j] == items[1..][j - 1];
      n + 1
  }

  /** Some item before index `n` is counted. */
  predicate SomeCounted(items: seq<Item>, practitioners: set<string>, startDay: int, endDay: int, n: nat)
  {
    exists j :: 0 <= j < n && j < |items| && Counted(items[j], practitioners, startDay, endDay)
  }

  /**
   * The sweep records the item in practitioner `pr`'s bin `k`: it is counted,
   * it is `pr`'s, and scanning the bin edges puts it in bin `k`.
   */
  predicate InCell(it: Item, practitioners: set<string>, startDay: int, endDay: int, edges: seq<int>, pr: string, k: nat)
  {
    Counted(it, practitioners, startDay, endDay) && it.practitioner.value == pr
    && 2 <= |edges| && it.day <= edges[|edges| - 1] && BinFrom(edges, it.day, 0) == k
  }

  /**
   * The updates of practitioner `pr`'s rate for bin `k`, in sweep order: the
   * observation of each item recorded in that cell (`obs[j]` is item `j`'s).
   */
  function CellUpdates(items: seq<Item>, obs: seq<(int, bool)>, practitioners: set<string>, startDay: int, endDay: int,
                       edges: seq<int>, pr: string, k: nat): seq<(int, bool)>
    requires |obs| == |items|
  {
    if items == [] then []
    else
      var n := |items| - 1;
      CellUpdates(items[..n], obs[..n], practitioners, startDay, endDay, edges, pr, k)
      + (if InCell(items[n], practitioners, startDay, endDay, edges, pr, k) then [obs[n]] else [])
  }

  /** The updates of the first `n + 1` items: those of the first `n`, then item `n`'s if it lands in the cell. */
  lemma CellUpdatesStep(items: seq<Item>, obs: seq<(int, bool)>, practitioners: set<string>, startDay: int, endDay: int,
                        edges: seq<int>, pr: string, k: nat, n: nat)
    requires n < |items| == |obs|
    ensures CellUpdates(items[..n + 1], obs[..n + 1], practitioners, startDay, endDay, edges, pr, k)
            == CellUpdates(items[..n], obs[..n], practitioners, startDay, endDay, edges, pr, k)
               + (if InCell(items[n], practitioners, startDay, endDay, edges, pr, k) then [obs[n]] else [])
  {
    assert items[..n + 1][..n] == items[..n];
    assert obs[..n + 1][..n] == obs[..n];
  }

  /** No two bins share a key. */
  predicate Distinct<K(==)>(bins: seq<K>)
  {
    forall k, m :: 0 <= k < m < |bins| ==> bins[k] != bins[m]
  }

  /** The set of bin keys: the keys of each practitioner's row. */
  function BinSet<K>(bins: seq<K>): set<K>
  {
    set b | b in bins
  }

  /**
   * The grid after the sweep has looked at the first `n` items: one row per
   * practitioner, one rate per bin, each the replay of that cell's updates.
   */
  ghost predicate GridMatches<K>(data: map<string, map<K, Tally>>, items: seq<Item>, obs: seq<(int, bool)>,
                                     practitioners: set<string>, startDay: int, endDay: int, edges: seq<int>, bins: seq<K>, n: nat)
    requires n <= |items| == |obs|
  {
    data.Keys == practitioners
    && (forall pr :: pr in data ==> data[pr].Keys == BinSet(bins))
    && (forall pr, k :: pr in practitioners && 0 <= k < |bins| ==>
          data[pr][bins[k]] == Replayed(CellUpdates(items[..n], obs[..n], practitioners, startDay, endDay, edges, pr, k)))
  }

  /**
   * The outcome of the binning loop over `items`: it fails exactly when
   * there is a single bin and some item before the break is counted, and
   * otherwise every cell holds the replay of its updates up to the break.
   */
  ghost predicate Swept<K>(r: Result<map<string, map<K, Tally>>, BinError>, items: seq<Item>, obs: seq<(int, bool)>,
                           practitioners: set<string>, startDay: int, endDay: int, edges: seq<int>, bins: seq<K>)
    requires |items| == |obs|
  {
    var stop := StopIndex(items, practitioners, startDay, endDay);
    (r.Failure? <==> |bins| < 2 && SomeCounted(items, practitioners, startDay, endDay, stop))
    && (r.Success? ==> GridMatches(r.value, items, obs, practitioners, startDay, endDay, edges, bins, stop))
  }

  /** The fresh grid of `analyze_practitioners`: an empty rate for every practitioner and bin. */
  function EmptyGrid<K(==)>(practitioners: set<string>, bins: seq<K>): map<string, map<K, Tally>>
  {
    map pr | pr in practitioners :: map b | b in bins :: Empty
  }

  /** No item looked at: the fresh grid matches. */
  lemma EmptyGridMatches<K>(items: seq<Item>, obs: seq<(int, bool)>, practitioners: set<string>, startDay: int, endDay: int,
                                edges: seq<int>, bins: seq<K>)
    requires |items| == |obs|
    ensures GridMatches(EmptyGrid(practitioners, bins), items, obs, practitioners, startDay, endDay, edges, bins, 0)
  {
    assert items[..0] == [];
  }

  /** An item the sweep passes over leaves every cell as it was. */
  lemma SkipKeepsGrid<K>(data: map<string, map<K, Tally>>, items: seq<Item>, obs: seq<(int, bool)>,
                             practitioners: set<string>, startDay: int, endDay: int, edges: seq<int>, bins: seq<K>, n: nat)
    requires n < |items| == |obs|
    requires !Counted(items[n], practitioners, startDay, endDay)
    requires GridMatches(data, items, obs, practitioners, startDay, endDay, edges, bins, n)
    ensures GridMatches(data, items, obs, practitioners, startDay, endDay, edges, bins, n + 1)
  {
    forall pr, k | pr in practitioners && 0 <= k < |bins|
      ensures data[pr][bins[k]] == Replayed(CellUpdates(items[..n + 1], obs[..n + 1], practitioners, startDay, endDay, edges, pr, k))
    {
      CellUpdatesStep(items, obs, practitioners, startDay, endDay, edges, pr, k, n);
      var before := CellUpdates(items[..n], obs[..n], practitioners, startDay, endDay, edges, pr, k);
      assert before + [] == before;
    }
  }

  /** Replaying one more update records it on top of the earlier ones. */
  lemma ReplayedSnoc(us: seq<(int, bool)>, u: (int, bool))
    ensures Replayed(us + [u]) == Recorded(Replayed(us), u.0, u.1)
  {
    assert (us + [u])[..|us|] == us;
  }

  /** Updating one cell of a two-level map leaves every other cell as it was. */
  lemma CellUpdate<R, C, V>(data: map<R, map<C, V>>, row: R, col: C, v: V, q: R, c: C)
    requires row in data && q in data && c in data[q]
    ensures var data' := data[row := data[row][col := v]];
            q in data' && c in data'[q] && data'[q][c] == if q == row && c == col then v else data[q][c]
  {
  }

  /** Updating an existing cell keeps the rows and the columns of a two-level map. */
  lemma CellUpdateKeepsShape<R, C, V>(data: map<R, map<C, V>>, row: R, col: C, v: V, rows: set<R>, cols: set<C>)
    requires data.Keys == rows && row in rows && col in cols && forall r :: r in data ==> data[r].Keys == cols
    ensures var data' := data[row := data[row][col := v]];
            data'.Keys == rows && forall r :: r in data' ==> data'[r].Keys == cols
  {
    var data' := data[row := data[row][col := v]];
    assert data'.Keys == data.Keys;
    assert data'[row].Keys == data[row].Keys;
  }

  /** Recording a counted item in bin `b`: that cell of its practitioner gains the observation, every other cell stays. */
  lemma RecordCell<K>(items: seq<Item>, obs: seq<(int, bool)>, practitioners: set<string>, startDay: int, endDay: int,
                          edges: seq<int>, bins: seq<K>, n: nat, b: nat, q: string, k: nat)
    requires n < |items| == |obs| && 2 <= |edges| == |bins| && endDay <= edges[|edges| - 1] && Distinct(bins)
    requires Counted(items[n], practitioners, startDay, endDay) && b == BinFrom(edges, items[n].day, 0)
    requires k < |bins|
    ensures var before := CellUpdates(items[..n], obs[..n], practitioners, startDay, endDay, edges, q, k);
            var after := CellUpdates(items[..n + 1], obs[..n + 1], practitioners, startDay, endDay, edges, q, k);
            if q == items[n].practitioner.value && bins[k] == bins[b] then after == before + [obs[n]] else after == before
  {
    CellUpdatesStep(items, obs, practitioners, startDay, endDay, edges, q, k, n);
    if k < b {
      assert bins[k] != bins[b];
    } else if b < k {
      assert bins[b] != bins[k];
    }
  }

  /** The cell `(q, bins[k])` after recording a counted item in bin `b` replays the updates of one more item. */
  lemma RecordedCellMatches<K>(data: map<string, map<K, Tally>>, items: seq<Item>, obs: seq<(int, bool)>,
                               practitioners: set<string>, startDay: int, endDay: int, edges: seq<int>, bins: seq<K>,
                               n: nat, b: nat, q: string, k: nat)
    requires n < |items| == |obs| && 2 <= |edges| == |bins| && endDay <= edges[|edges| - 1] && Distinct(bins)
    requires Counted(items[n], practitioners, startDay, endDay) && b == BinFrom(edges, items[n].day, 0) && k < |bins|
    requires var pr := items[n].practitioner.value; pr in data && bins[b] in data[pr] && q in data && bins[k] in data[q]
    requires data[q][bins[k]] == Replayed(CellUpdates(items[..n], obs[..n], practitioners, startDay, endDay, edges, q, k))
    ensures var pr := items[n].practitioner.value;
            var data' := data[pr := data[pr][bins[b] := Recorded(data[pr][bins[b]], obs[n].0, obs[n].1)]];
            q in data' && bins[k] in data'[q]
            && data'[q][bins[k]] == Replayed(CellUpdates(items[..n + 1], obs[..n + 1], practitioners, startDay, endDay, edges, q, k))
  {
    var pr := items[n].practitioner.value;
    var before := CellUpdates(items[..n], obs[..n], practitioners, startDay, endDay, edges, q, k);
    var cell := Recorded(data[pr][bins[b]], obs[n].0, obs[n].1);
    RecordCell(items, obs, practitioners, startDay, endDay, edges, bins, n, b, q, k);
    CellUpdate(data, pr, bins[b], cell, q, bins[k]);
    if q == pr && bins[k] == bins[b] {
      ReplayedSnoc(before, obs[n]);
    }
  }

  /** Recording a counted item's observation in its own cell keeps the grid matching. */
  lemma RecordKeepsGrid<K>(data: map<string, map<K, Tally>>, items: seq<Item>, obs: seq<(int, bool)>,
                           practitioners: set<string>, startDay: int, endDay: int, edges: seq<int>, bins: seq<K>, n: nat, b: nat)
    requires n < |items| == |obs| && 2 <= |edges| == |bins| && endDay <= edges[|edges| - 1] && Distinct(bins)
    requires Counted(items[n], practitioners, startDay, endDay) && b == BinFrom(edges, items[n].day, 0)
    requires GridMatches(data, items, obs, practitioners, startDay, endDay, edges, bins, n)
    ensures var pr := items[n].practitioner.value;
            b < |bins| && pr in data && bins[b] in data[pr]
            && GridMatches(data[pr := data[pr][bins[b] := Recorded(data[pr][bins[b]], obs[n].0, obs[n].1)]],
                           items, obs, practitioners, startDay, endDay, edges, bins, n + 1)
  {
    var pr := items[n].practitioner.value;
    assert bins[b] in BinSet(bins);
    var data' := data[pr := data[pr][bins[b] := Recorded(data[pr][bins[b]], obs[n].0, obs[n].1)]];
    CellUpdateKeepsShape(data, pr, bins[b], Recorded(data[pr][bins[b]], obs[n].0, obs[n].1), practitioners, BinSet(bins));
    forall q, k | q in practitioners && 0 <= k < |bins|
      ensures data'[q][bins[k]] == Replayed(CellUpdates(items[..n + 1], obs[..n + 1], practitioners, startDay, endDay, edges, q, k))
    {
      assert bins[k] in BinSet(bins);
      RecordedCellMatches(data, items, obs, practitioners, startDay, endDay, edges, bins, n, b, q, k);
    }
  }

  /** Scanning from a bin whose edges up to its own are all below `t` ends where scanning from the first bin does. */
  lemma BinFromSkip(edges: seq<int>, t: int, i: nat)
    requires i + 1 < |edges| && t <= edges[|edges| - 1]
    requires forall m :: 0 < m <= i ==> edges[m] < t
    ensures BinFrom(edges, t, i) == BinFrom(edges, t, 0)
  {
    BinFromIs(edges, t, 0, BinFrom(edges, t, i));
  }

  /** Increasing bins are distinct. */
  lemma IncreasingBinsDistinct(bins: seq<Date>)
    requires Increasing(bins)
    ensures Distinct(bins)
  {
    forall k, m | 0 <= k < m < |bins|
      ensures bins[k] != bins[m]
    {
      assert DayNumbers(bins)[k] < DayNumbers(bins)[m];
    }
  }

  /** What the sweep needs of the bins: at least one, increasing and distinct, the last not before `end`. */
  lemma MonthBinsEdges(start: Date, end: Date, size: nat)
    requires 1 <= size
    ensures var bins := MonthBins(start, end, size);
            var edges := DayNumbers(bins);
            1 <= |bins| && Ord(end) <= edges[|edges| - 1] && StrictlyIncreasing(edges) && Distinct(bins)
  {
    MonthBinsShape(start, end, size);
    MonthBinsIncreasing(start, end, size);
    IncreasingBinsDistinct(MonthBins(start, end, size));
  }

  /** `analyze_practitioners`' result: per practitioner and bin date, the rate. */
  type Grid = map<string, map<Date, Tally>>

  /** `date_bins[i + 1]` read past the only bin. */
  datatype BinError = IndexError

  /**
   * The inner loop of the sweep: move the bin index forward while the day is
   * past the next bin's edge. It stops at the bin `BinFrom` names.
   */
  method AdvanceBin(edges: seq<int>, day: int, bin: nat) returns (b: nat)
    requires bin + 1 < |edges| && day <= edges[|edges| - 1]
    ensures b == BinFrom(edges, day, bin)
  {
    b := bin;
    while edges[b + 1] < day
      invariant b + 1 < |edges| && BinFrom(edges, day, b) == BinFrom(edges, day, bin)
      decreases |edges| - b
    {
      b := b + 1;
    }
  }

  /** The items are in start order, as the sort before the sweep leaves them. */
  predicate DaysSorted(items: seq<Item>)
  {
    forall a, b :: 0 <= a < b < |items| ==> items[a].day <= items[b].day
  }

  /**
   * The binning loop of `analyze_practitioners`, on day numbers: `edges[i]`
   * is the day number of bin `bins[i]` and `obs[j]` what tuple `j` would
   * record. It skips items of other practitioners and those before the start,
   * breaks at the first one after the end, moves the bin index forward while
   * the day is past the next bin's edge, and records the observation in that
   * cell. It fails exactly when there is a single bin and some item before
   * the break is counted; otherwise every cell holds the replay of its updates.
   */
  method Sweep<K(==)>(items: seq<Item>, obs: seq<(int, bool)>, practitioners: set<string>, startDay: int, endDay: int,
                      edges: seq<int>, bins: seq<K>) returns (r: Result<map<string, map<K, Tally>>, BinError>)
    requires |items| == |obs| && 1 <= |edges| == |bins| && endDay <= edges[|edges| - 1]
    requires Distinct(bins) && DaysSorted(items)
    ensures Swept(r, items, obs, practitioners, startDay, endDay, edges, bins)
  {
    ghost var stop := StopIndex(items, practitioners, startDay, endDay);
    var data := EmptyGrid(practitioners, bins);
    EmptyGridMatches(items, obs, practitioners, startDay, endDay, edges, bins);
    var bin: nat := 0;
    ghost var last := if |items| == 0 then 0 else items[0].day;
    var j: nat := 0;
    while j < |items|
      invariant SweepInvariant(data, items, obs, practitioners, startDay, endDay, edges, bins, j, bin, last)
    {
      var action;
      action, data, bin, last := SweepStep(data, items, obs, practitioners, startDay, endDay, edges, bins, j, bin, last);
      if action == Break {
        break;
      } else if action == Fail {
        return Failure(IndexError);
      }
      j := j + 1;
    }
    SweptSuccess(data, items, obs, practitioners, startDay, endDay, edges, bins);
    return Success(data);
  }

  /** What the sweep does after looking at one item. */
  datatype SweepAction = Next | Break | Fail

  /**
   * The invariant of the sweep after `j` items: the break is not passed, the
   * grid matches the items so far, nothing was counted yet with a single
   * bin, and the bin index lies behind the last recorded day and before
   * every later one.
   */
  ghost predicate SweepInvariant<K>(data: map<string, map<K, Tally>>, items: seq<Item>, obs: seq<(int, bool)>,
                                    practitioners: set<string>, startDay: int, endDay: int, edges: seq<int>, bins: seq<K>,
                                    j: nat, bin: nat, last: int)
  {
    |items| == |obs| && j <= StopIndex(items, practitioners, startDay, endDay)
    && GridMatches(data, items, obs, practitioners, startDay, endDay, edges, bins, j)
    && (|bins| < 2 ==> !SomeCounted(items, practitioners, startDay, endDay, j))
    && bin < |bins| && (2 <= |bins| ==> bin + 1 < |bins|)
    && (forall m :: 0 < m <= bin && m < |edges| ==> edges[m] < last)
    && (forall q :: j <= q < |items| ==> last <= items[q].day)
  }

  /**
   * The loop body of the sweep for item `j`: an item of another
   * practitioner or before the start is passed over; one after the end
   * breaks the loop; otherwise a single bin fails, and more bins record the
   * item in its cell.
   */
  method SweepStep<K(==)>(data: map<string, map<K, Tally>>, items: seq<Item>, obs: seq<(int, bool)>, practitioners: set<string>,
                          startDay: int, endDay: int, edges: seq<int>, bins: seq<K>, j: nat, bin: nat, ghost last: int)
    returns (action: SweepAction, data': map<string, map<K, Tally>>, bin': nat, ghost last': int)
    requires |items| == |obs| && 1 <= |edges| == |bins| && endDay <= edges[|edges| - 1] && Distinct(bins) && DaysSorted(items)
    requires j < |items| && SweepInvariant(data, items, obs, practitioners, startDay, endDay, edges, bins, j, bin, last)
    ensures action == Next ==> SweepInvariant(data', items, obs, practitioners, startDay, endDay, edges, bins, j + 1, bin', last')
    ensures action == Break ==> j == StopIndex(items, practitioners, startDay, endDay) && data' == data
                                && SweepInvariant(data', items, obs, practitioners, startDay, endDay, edges, bins, j, bin', last')
    ensures action == Fail ==> Swept(Failure(IndexError), items, obs, practitioners, startDay, endDay, edges, bins)
  {
    data', bin', last' := data, bin, last;
    var it := items[j];
    if it.practitioner.None? || it.practitioner.value !in practitioners || it.day < startDay {
      assert !Stops(items[j], practitioners, startDay, endDay);
      assert j != StopIndex(items, practitioners, startDay, endDay);
      SkipKeepsGrid(data, items, obs, practitioners, startDay, endDay, edges, bins, j);
      SomeCountedSkip(items, practitioners, startDay, endDay, j);
      return Next, data', bin', last';
    }
    if endDay < it.day {
      assert Stops(items[j], practitioners, startDay, endDay);
      return Break, data', bin', last';
    }
    if |bins| < 2 {
      SweptFailure(items, obs, practitioners, startDay, endDay, edges, bins, j);
      return Fail, data', bin', last';
    }
    assert !Stops(items[j], practitioners, startDay, endDay);
    assert j != StopIndex(items, practitioners, startDay, endDay);
    data', bin' := RecordItem(data, items, obs, practitioners, startDay, endDay, edges, bins, j, bin, last);
    last' := it.day;
    action := Next;
  }

  /** An item that is not counted leaves "some item counted" as it was. */
  lemma SomeCountedSkip(items: seq<Item>, practitioners: set<string>, startDay: int, endDay: int, j: nat)
    requires j < |items| && !Counted(items[j], practitioners, startDay, endDay)
    ensures SomeCounted(items, practitioners, startDay, endDay, j + 1) == SomeCounted(items, practitioners, startDay, endDay, j)
  {
    if SomeCounted(items, practitioners, startDay, endDay, j + 1) {
      var w :| 0 <= w < j + 1 && w < |items| && Counted(items[w], practitioners, startDay, endDay);
      assert w != j;
    }
  }

  /** A counted item before the break with a single bin: the sweep's failure is the promised outcome. */
  lemma SweptFailure<K>(items: seq<Item>, obs: seq<(int, bool)>, practitioners: set<string>, startDay: int, endDay: int,
                        edges: seq<int>, bins: seq<K>, j: nat)
    requires |items| == |obs| && j < |items| && |bins| < 2
    requires j <= StopIndex(items, practitioners, startDay, endDay) && Counted(items[j], practitioners, startDay, endDay)
    ensures Swept(Failure(IndexError), items, obs, practitioners, startDay, endDay, edges, bins)
  {
    var stop := StopIndex(items, practitioners, startDay, endDay);
    assert j != stop;
    assert SomeCounted(items, practitioners, startDay, endDay, stop);
  }

  /** A grid that matches the items up to the break, with no counted item there when there is a single bin, is the promised outcome. */
  lemma SweptSuccess<K>(data: map<string, map<K, Tally>>, items: seq<Item>, obs: seq<(int, bool)>, practitioners: set<string>,
                        startDay: int, endDay: int, edges: seq<int>, bins: seq<K>)
    requires |items| == |obs|
    requires GridMatches(data, items, obs, practitioners, startDay, endDay, edges, bins, StopIndex(items, practitioners, startDay, endDay))
    requires |bins| < 2 ==> !SomeCounted(items, practitioners, startDay, endDay, StopIndex(items, practitioners, startDay, endDay))
    ensures Swept(Success(data), items, obs, practitioners, startDay, endDay, edges, bins)
  {
  }

  /**
   * The loop body of the sweep for a counted item: the bin index moves
   * forward to the item's bin, and that practitioner's cell records the
   * observation, so the grid matches the items up to and including this one.
   */
  method RecordItem<K(==)>(data: map<string, map<K, Tally>>, items: seq<Item>, obs: seq<(int, bool)>, practitioners: set<string>,
                           startDay: int, endDay: int, edges: seq<int>, bins: seq<K>, j: nat, bin: nat, ghost last: int)
    returns (data': map<string, map<K, Tally>>, bin': nat)
    requires j < |items| == |obs| && 2 <= |edges| == |bins| && endDay <= edges[|edges| - 1] && Distinct(bins)
    requires Counted(items[j], practitioners, startDay, endDay)
    requires GridMatches(data, items, obs, practitioners, startDay, endDay, edges, bins, j)
    requires bin + 1 < |bins| && last <= items[j].day && forall m :: 0 < m <= bin ==> edges[m] < last
    ensures GridMatches(data', items, obs, practitioners, startDay, endDay, edges, bins, j + 1)
    ensures bin' + 1 < |bins| && forall m :: 0 < m <= bin' ==> edges[m] < items[j].day
  {
    var it := items[j];
    BinFromSkip(edges, it.day, bin);
    bin' := AdvanceBin(edges, it.day, bin);
    RecordKeepsGrid(data, items, obs, practitioners, startDay, endDay, edges, bins, j, bin');
    var pr := it.practitioner.value;
    data' := data[pr := data[pr][bins[bin'] := Recorded(data[pr][bins[bin']], obs[j].0, obs[j].1)]];
  }

  /** Tuples sorted by start date give items sorted by day. */
  lemma ItemsSorted(tuples: seq<(Patient, Diagnosis)>)
    requires SortedBy(tuples, TupleStart)
    ensures DaysSorted(Items(tuples))
  {
    var items := Items(tuples);
    forall a, b | 0 <= a < b < |items|
      ensures items[a].day <= items[b].day
    {
      assert TupleStart(tuples[a]) <= TupleStart(tuples[b]);
    }
  }

  /**
   * The binning loop of `analyze_practitioners` over tuples sorted by start
   * date and the bins `get_month_bins(start, end, binMonths)`: each tuple's
   * start is compared by its day number, and a counted tuple records the
   * patient's score and medication flag.
   */
  method BinDiagnoses(tuples: seq<(Patient, Diagnosis)>, practitioners: set<string>, start: Date, end: Date,
                      binMonths: nat, bins: seq<Date>, medsStartWith: string) returns (r: Result<Grid, BinError>)
    requires 1 <= binMonths && bins == MonthBins(start, end, binMonths)
    requires SortedBy(tuples, TupleStart)
    ensures Swept(r, Items(tuples), Observations(tuples, medsStartWith), practitioners, Ord(start), Ord(end), DayNumbers(bins), bins)
  {
    var items := Items(tuples);
    var obs := Observations(tuples, medsStartWith);
    var edges := DayNumbers(bins);
    MonthBinsEdges(start, end, binMonths);
    ItemsSorted(tuples);
    r := Sweep(items, obs, practitioners, Ord(start), Ord(end), edges, bins);
    assert Observations(tuples, medsStartWith) == obs;
  }

  /** `get_month_bins` returns a single bin exactly when `start` is not before `end`. */
  lemma SingleBinIffNotBefore(start: Date, end: Date, size: nat)
    requires 1 <= size
    ensures |MonthBins(start, end, size)| == 1 <==> !Before(start, end)
  {
    if Before(start, end) {
      MonthBinsShape(AddMonths(start, size), end, size);
    }
  }

  /**
   * The binning loop can only fail with `IndexError` when `start` and `end`
   * are the same day: then there is a single bin and a counted diagnosis
   * falls on that day.
   */
  lemma IndexErrorOnlyOnOneDay(start: Date, end: Date, size: nat, items: seq<Item>, practitioners: set<string>, n: nat)
    requires 1 <= size
    requires |MonthBins(start, end, size)| < 2 && SomeCounted(items, practitioners, Ord(start), Ord(end), n)
    ensures start == end
  {
    MonthBinsShape(start, end, size);
    var j :| 0 <= j < n && j < |items| && Counted(items[j], practitioners, Ord(start), Ord(end));
    BeforeIsCalendarOrder(start, end);
  }

  /**
   * The cell the sweep picks for a tuple, stated on dates: the tuple is
   * counted, it is practitioner `pr`'s, and `k` is the bin `BinIndex` gives
   * for its start date (see `BinIndex` and `BoundaryGoesToPreviousBin`).
   */
  lemma InCellIsBinIndex(tp: (Patient, Diagnosis), practitioners: set<string>, startDay: int, endDay: int,
                         bins: seq<Date>, pr: string, k: nat)
    requires 2 <= |bins|
    ensures InCell(ItemOf(tp), practitioners, startDay, endDay, DayNumbers(bins), pr, k)
            <==> Counted(ItemOf(tp), practitioners, startDay, endDay) && tp.1.practitioner == Some(pr)
                 && NotAfter(tp.1.start, bins[|bins| - 1]) && BinIndex(bins, tp.1.start) == k
  {
    var edges := DayNumbers(bins);
    assert edges[|edges| - 1] == Ord(bins[|bins| - 1]);
  }

  // The cohort: practitioners and (patient, diagnosis) pairs

  /** `patient.diagnoses.values()` walked list by list in the dict's order. */
  function EpisodesOf(lists: DiagnosisLists, order: seq<DiseaseId>): seq<Diagnosis>
  {
    if order == [] then []
    else
      var id := order[|order| - 1];
      EpisodesOf(lists, order[..|order| - 1]) + (if id in lists then lists[id] else [])
  }

  /** `get_practitioners` keeps this diagnosis's practitioner: it is set and non-empty, and `spec` is None or its disease's. */
  predicate Collects(d: Diagnosis, spec: Option<string>)
  {
    d.practitioner.Some? && d.practitioner.value != "" && (spec.None? || spec.value == d.disease.spec)
  }

  /** The practitioners `get_practitioners` collects from a run of diagnoses. */
  function PractitionersIn(episodes: seq<Diagnosis>, spec: Option<string>): set<string>
  {
    if episodes == [] then {}
    else
      var d := episodes[|episodes| - 1];
      PractitionersIn(episodes[..|episodes| - 1], spec) + (if Collects(d, spec) then {d.practitioner.value} else {})
  }

  /** A practitioner is collected exactly when one of the diagnoses is theirs and passes the filter. */
  lemma {:induction false} PractitionersInMembers(episodes: seq<Diagnosis>, spec: Option<string>, pr: string)
    ensures pr in PractitionersIn(episodes, spec)
            <==> exists j :: 0 <= j < |episodes| && Collects(episodes[j], spec) && episodes[j].practitioner.value == pr
  {
    if episodes != [] {
      var n := |episodes| - 1;
      PractitionersInMembers(episodes[..n], spec, pr);
      if exists j :: 0 <= j < n && Collects(episodes[..n][j], spec) && episodes[..n][j].practitioner.value == pr {
        var j :| 0 <= j < n && Collects(episodes[..n][j], spec) && episodes[..n][j].practitioner.value == pr;
        assert episodes[j] == episodes[..n][j];
      }
      if exists j :: 0 <= j < |episodes| && Collects(episodes[j], spec) && episodes[j].practitioner.value == pr {
        var j :| 0 <= j < |episodes| && Collects(episodes[j], spec) && episodes[j].practitioner.value == pr;
        if j < n {
          assert episodes[..n][j] == episodes[j];
        }
      }
    }
  }

  /** Restricting to one specialism collects no practitioner that the unrestricted call misses. */
  lemma PractitionersOfSpecAmongAll(episodes: seq<Diagnosis>, spec: string)
    ensures PractitionersIn(episodes, Some(spec)) <= PractitionersIn(episodes, None)
  {
    forall pr | pr in PractitionersIn(episodes, Some(spec))
      ensures pr in PractitionersIn(episodes, None)
    {
      PractitionersInMembers(episodes, Some(spec), pr);
      PractitionersInMembers(episodes, None, pr);
    }
  }

  /** The diagnoses a patient contributes: all of them in dict order, or only the given disease's list. */
  function Selected(lists: DiagnosisLists, order: seq<DiseaseId>, disease: Option<DiseaseId>): seq<Diagnosis>
  {
    if disease.Some? then (if disease.value in lists then lists[disease.value] else [])
    else EpisodesOf(lists, order)
  }

  /** Each diagnosis paired with its patient. */
  function Paired(p: Patient, ds: seq<Diagnosis>): (r: seq<(Patient, Diagnosis)>)
    ensures |r| == |ds| && forall j :: 0 <= j < |ds| ==> r[j] == (p, ds[j])
  {
    seq(|ds|, j requires 0 <= j < |ds| => (p, ds[j]))
  }

  /** The practitioners `get_practitioners(patients, spec)` returns: those of every patient's diagnoses in dict order. */
  function CohortPractitioners(patients: seq<Patient>, spec: Option<string>): set<string>
    reads patients
  {
    if patients == [] then {}
    else
      var p := patients[|patients| - 1];
      CohortPractitioners(patients[..|patients| - 1], spec) + PractitionersIn(EpisodesOf(p.diagnoses, p.diseaseOrder), spec)
  }

  /** The list `get_diagnosis_tuples(patients, disease)` returns, patient by patient. */
  function TuplesOf(patients: seq<Patient>, disease: Option<DiseaseId>): seq<(Patient, Diagnosis)>
    reads patients
  {
    if patients == [] then []
    else
      var p := patients[|patients| - 1];
      TuplesOf(patients[..|patients| - 1], disease) + Paired(p, Selected(p.diagnoses, p.diseaseOrder, disease))
  }

  /** Walking one more disease list of the dict. */
  lemma EpisodesOfSnoc(lists: DiagnosisLists, order: seq<DiseaseId>, k: nat)
    requires k < |order|
    ensures EpisodesOf(lists, order[..k + 1]) == EpisodesOf(lists, order[..k]) + (if order[k] in lists then lists[order[k]] else [])
  {
    assert order[..k + 1][..k] == order[..k];
  }

  /** One more diagnosis: its practitioner is added when it passes the filter. */
  lemma PractitionersInSnoc(episodes: seq<Diagnosis>, j: nat, spec: Option<string>)
    requires j < |episodes|
    ensures PractitionersIn(episodes[..j + 1], spec)
            == PractitionersIn(episodes[..j], spec) + (if Collects(episodes[j], spec) then {episodes[j].practitioner.value} else {})
  {
    assert episodes[..j + 1][..j] == episodes[..j];
  }

  /** Collecting from two runs of diagnoses in turn is collecting from their concatenation. */
  lemma {:induction false} PractitionersInAppend(a: seq<Diagnosis>, b: seq<Diagnosis>, spec: Option<string>)
    ensures PractitionersIn(a + b, spec) == PractitionersIn(a, spec) + PractitionersIn(b, spec)
  {
    if b != [] {
      var n := |b| - 1;
      assert (a + b)[..|a + b| - 1] == a + b[..n];
      PractitionersInAppend(a, b[..n], spec);
    } else {
      assert a + b == a;
    }
  }

  /** The innermost loop of `get_practitioners`: one disease's list of diagnoses. */
  method CollectFromList(diagnoses: seq<Diagnosis>, spec: Option<string>, found: set<string>) returns (practitioners: set<string>)
    ensures practitioners == found + PractitionersIn(diagnoses, spec)
  {
    practitioners := found;
    for j := 0 to |diagnoses|
      invariant practitioners == found + PractitionersIn(diagnoses[..j], spec)
    {
      var d := diagnoses[j];
      PractitionersInSnoc(diagnoses, j, spec);
      if d.practitioner.None? || d.practitioner.value == "" {
        continue;
      }
      if spec.None? {
        practitioners := practitioners + {d.practitioner.value};
        continue;
      }
      if spec.value == d.disease.spec {
        practitioners := practitioners + {d.practitioner.value};
      }
    }
    assert diagnoses[..|diagnoses|] == diagnoses;
  }

  /** The two inner loops of `get_practitioners`: one patient's disease lists in dict order. */
  method CollectPractitioners(p: Patient, spec: Option<string>, found: set<string>) returns (practitioners: set<string>)
    ensures practitioners == found + PractitionersIn(EpisodesOf(p.diagnoses, p.diseaseOrder), spec)
  {
    practitioners := found;
    for k := 0 to |p.diseaseOrder|
      invariant practitioners == found + PractitionersIn(EpisodesOf(p.diagnoses, p.diseaseOrder[..k]), spec)
    {
      var id := p.diseaseOrder[k];
      ghost var before := EpisodesOf(p.diagnoses, p.diseaseOrder[..k]);
      ghost var added := if id in p.diagnoses then p.diagnoses[id] else [];
      EpisodesOfSnoc(p.diagnoses, p.diseaseOrder, k);
      PractitionersInAppend(before, added, spec);
      if id in p.diagnoses {
        practitioners := CollectFromList(p.diagnoses[id], spec, practitioners);
      }
    }
    assert p.diseaseOrder[..|p.diseaseOrder|] == p.diseaseOrder;
  }

  /**
   * `get_practitioners`: every patient (in the dict's order), every disease
   * list, every diagnosis; a practitioner is added when set and non-empty and
   * `spec` is None or the disease's specialism.
   */
  method GetPractitioners(patients: seq<Patient>, spec: Option<string>) returns (practitioners: set<string>)
    ensures practitioners == CohortPractitioners(patients, spec)
  {
    practitioners := {};
    for i := 0 to |patients|
      invariant practitioners == CohortPractitioners(patients[..i], spec)
    {
      assert patients[..i + 1][..i] == patients[..i];
      practitioners := CollectPractitioners(patients[i], spec, practitioners);
    }
    assert patients[..|patients|] == patients;
  }

  /** `tuples.append((patient, diagnosis))` for each of `diagnoses`. */
  method AppendPairs(p: Patient, diagnoses: seq<Diagnosis>, tuples: seq<(Patient, Diagnosis)>) returns (r: seq<(Patient, Diagnosis)>)
    ensures r == tuples + Paired(p, diagnoses)
  {
    r := tuples;
    for j := 0 to |diagnoses|
      invariant r == tuples + Paired(p, diagnoses[..j])
    {
      r := r + [(p, diagnoses[j])];
    }
    assert diagnoses[..|diagnoses|] == diagnoses;
  }

  /** Pairing distributes over concatenation. */
  lemma PairedAppend(p: Patient, a: seq<Diagnosis>, b: seq<Diagnosis>)
    ensures Paired(p, a + b) == Paired(p, a) + Paired(p, b)
  {
  }

  /** The inner loops of `get_diagnosis_tuples` for one patient. */
  method AppendPatientTuples(p: Patient, disease: Option<DiseaseId>, tuples: seq<(Patient, Diagnosis)>) returns (r: seq<(Patient, Diagnosis)>)
    ensures r == tuples + Paired(p, Selected(p.diagnoses, p.diseaseOrder, disease))
  {
    if disease.Some? {
      if disease.value !in p.diagnoses {
        assert tuples + Paired(p, []) == tuples;
        return tuples;
      }
      r := AppendPairs(p, p.diagnoses[disease.value], tuples);
      return;
    }
    r := tuples;
    for k := 0 to |p.diseaseOrder|
      invariant r == tuples + Paired(p, EpisodesOf(p.diagnoses, p.diseaseOrder[..k]))
    {
      var id := p.diseaseOrder[k];
      EpisodesOfSnoc(p.diagnoses, p.diseaseOrder, k);
      PairedAppend(p, EpisodesOf(p.diagnoses, p.diseaseOrder[..k]), if id in p.diagnoses then p.diagnoses[id] else []);
      if id in p.diagnoses {
        r := AppendPairs(p, p.diagnoses[id], r);
      } else {
        assert Paired(p, []) == [];
      }
    }
    assert p.diseaseOrder[..|p.diseaseOrder|] == p.diseaseOrder;
  }

  /**
   * `get_diagnosis_tuples`: patient by patient, the pairs of the given
   * disease's list (none when the patient lacks it), or of every diagnosis
   * in dict order when no disease is given.
   */
  method GetDiagnosisTuples(patients: seq<Patient>, disease: Option<DiseaseId>) returns (tuples: seq<(Patient, Diagnosis)>)
    ensures tuples == TuplesOf(patients, disease)
  {
    tuples := [];
    for i := 0 to |patients|
      invariant tuples == TuplesOf(patients[..i], disease)
    {
      assert patients[..i + 1][..i] == patients[..i];
      tuples := AppendPatientTuples(patients[i], disease, tuples);
    }
    assert patients[..|patients|] == patients;
  }

  /** A diagnosis is walked exactly when it is in the list of a disease of the order. */
  lemma {:induction false} EpisodesOfMembers(lists: DiagnosisLists, order: seq<DiseaseId>, d: Diagnosis)
    ensures d in EpisodesOf(lists, order) <==> exists id :: id in order && id in lists && d in lists[id]
  {
    if order != [] {
      var n := |order| - 1;
      EpisodesOfMembers(lists, order[..n], d);
      assert order == order[..n] + [order[n]];
      if exists id :: id in order && id in lists && d in lists[id] {
        var id :| id in order && id in lists && d in lists[id];
        if id != order[n] {
          assert id in order[..n];
        }
      }
    }
  }

  /** With the order listing the recorded diseases, one disease's diagnoses are among all of the patient's. */
  lemma SelectedDiseaseAmongAll(lists: DiagnosisLists, order: seq<DiseaseId>, id: DiseaseId, d: Diagnosis)
    requires OrderMatches(order, lists)
    ensures d in Selected(lists, order, Some(id)) ==> d in Selected(lists, order, None)
  {
    EpisodesOfMembers(lists, order, d);
  }

  /** A practitioner is in the cohort exactly when one of its patients has a diagnosis of theirs that passes the filter. */
  lemma {:induction false} CohortPractitionersMembers(patients: seq<Patient>, spec: Option<string>, pr: string)
    ensures pr in CohortPractitioners(patients, spec)
            <==> exists i :: 0 <= i < |patients| && pr in PractitionersIn(EpisodesOf(patients[i].diagnoses, patients[i].diseaseOrder), spec)
  {
    if patients != [] {
      var n := |patients| - 1;
      CohortPractitionersMembers(patients[..n], spec, pr);
      if exists i :: 0 <= i < |patients| && pr in PractitionersIn(EpisodesOf(patients[i].diagnoses, patients[i].diseaseOrder), spec) {
        var i :| 0 <= i < |patients| && pr in PractitionersIn(EpisodesOf(patients[i].diagnoses, patients[i].diseaseOrder), spec);
        if i < n {
          assert patients[..n][i] == patients[i];
        }
      }
      if exists i :: 0 <= i < n && pr in PractitionersIn(EpisodesOf(patients[..n][i].diagnoses, patients[..n][i].diseaseOrder), spec) {
        var i :| 0 <= i < n && pr in PractitionersIn(EpisodesOf(patients[..n][i].diagnoses, patients[..n][i].diseaseOrder), spec);
        assert patients[..n][i] == patients[i];
      }
    }
  }

  /** The disease `analyze_practitioners` restricts the tuples to: none unless both `spec` and `diag` are given. */
  function DiseaseFilter(spec: Option<string>, diag: Option<string>): (disease: Option<DiseaseId>)
    ensures disease.Some? <==> spec.Some? && diag.Some?
    ensures disease.Some? ==> disease.value.spec == spec.value && disease.value.diag == diag.value
  {
    if spec.None? || diag.None? then None else Some(DiseaseId(spec.value, diag.value))
  }

  /**
   * `analyze_practitioners` (with `plot=False`): the bins from `start` to
   * `end`, the cohort's practitioners for `spec`, the tuples of the disease
   * (`spec`, `diag`) sorted stably by start date, then the binning loop. It
   * fails exactly when there is a single bin and a counted diagnosis comes
   * before the break; otherwise each practitioner's rate for a bin replays
   * the observations of the tuples recorded in that cell.
   */
  method AnalyzePractitioners(patients: seq<Patient>, start: Date, end: Date, binMonths: nat, medsStartWith: string,
                              spec: Option<string>, diag: Option<string>) returns (r: Result<Grid, BinError>)
    requires 1 <= binMonths
    ensures var bins := MonthBins(start, end, binMonths);
            var tuples := SortByKey(TuplesOf(patients, DiseaseFilter(spec, diag)), TupleStart);
            var items := Items(tuples);
            var practitioners := CohortPractitioners(patients, spec);
            var stop := StopIndex(items, practitioners, Ord(start), Ord(end));
            (r.Failure? <==> |bins| < 2 && SomeCounted(items, practitioners, Ord(start), Ord(end), stop))
            && (r.Success? ==> GridMatches(r.value, items, Observations(tuples, medsStartWith), practitioners, Ord(start), Ord(end),
                                           DayNumbers(bins), bins, stop))
  {
    var bins := GetMonthBins(start, end, binMonths);
    var practitioners := GetPractitioners(patients, spec);
    var disease := DiseaseFilter(spec, diag);
    var tuples := GetDiagnosisTuples(patients, disease);
    tuples := SortByKey(tuples, TupleStart);
    SortByKeyProperties(TuplesOf(patients, disease), TupleStart);
    r := BinDiagnoses(tuples, practitioners, start, end, binMonths, bins, medsStartWith);
  }
}
