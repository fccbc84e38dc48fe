/**
 * `MedicationRate` (practioner_analysis/medication_rate.py, and the class of
 * the same name in practitioner.py whose second counter is called
 * `required`): per CHA2DS2-VASc score, how many diagnoses were seen and how
 * many of them came with a medication. A `Counter` is a map read as 0 at a
 * missing key; the key order of `total`, which `get_count_threshold` walks,
 * is kept alongside.
 */
module MedicationRates {

  /** `counter[k]`: 0 for a missing key. */
  function Get(c: map<int, nat>, k: int): nat
  {
    if k in c then c[k] else 0
  }

  /** The state of a rate: the keys of `total` in insertion order, `total` and `with_medication`. */
  datatype Tally = Tally(scores: seq<int>, total: map<int, nat>, withMedication: map<int, nat>)

  /** A fresh rate: both counters empty. */
  const Empty: Tally := Tally([], map[], map[])

  /** What updates starting from an empty rate keep: every medication count bounded by its total. */
  ghost predicate Consistent(t: Tally)
  {
    (forall i, j :: 0 <= i < j < |t.scores| ==> t.scores[i] != t.scores[j])
    && (forall s :: s in t.total <==> s in t.scores)
    && (forall s :: s in t.withMedication ==> s in t.total && t.withMedication[s] <= t.total[s])
  }

  /** `update(score, has_medication)`: one more diagnosis at `score`, with medication or not. */
  function Recorded(t: Tally, score: int, hasMedication: bool): (r: Tally)
    ensures forall s :: Get(r.total, s) == Get(t.total, s) + (if s == score then 1 else 0)
    ensures forall s :: Get(r.withMedication, s) == Get(t.withMedication, s) + (if s == score && hasMedication then 1 else 0)
  {
    Tally(if score in t.total then t.scores else t.scores + [score],
          t.total[score := Get(t.total, score) + 1],
          if hasMedication then t.withMedication[score := Get(t.withMedication, score) + 1] else t.withMedication)
  }

  /** `__eq__`: both counters equal; the key order plays no part. */
  predicate Equal(a: Tally, b: Tally)
    ensures Equal(a, b) ==> forall s :: Get(a.total, s) == Get(b.total, s) && Get(a.withMedication, s) == Get(b.withMedication, s)
  {
    a.total == b.total && a.withMedication == b.withMedication
  }

  /** The sum of `c` over the keys in `scores` that are at least `k`. */
  function AtLeast(scores: seq<int>, c: map<int, nat>, k: int): (sum: nat)
    ensures (forall i :: 0 <= i < |scores| ==> scores[i] < k) ==> sum == 0
  {
    if scores == [] then 0
    else AtLeast(scores[..|scores| - 1], c, k) + (if scores[|scores| - 1] >= k then Get(c, scores[|scores| - 1]) else 0)
  }

  /** `get_count_threshold(k)`: the diagnoses with medication and all diagnoses at scores of at least `k`. */
  function Threshold(t: Tally, k: int): (r: (int, int))
    ensures (forall i :: 0 <= i < |t.scores| ==> t.scores[i] < k) ==> r == (0, 0)
  {
    (AtLeast(t.scores, t.withMedication, k), AtLeast(t.scores, t.total, k))
  }

  /** The rate after the updates `us`, in order, starting from a fresh one. */
  function Replayed(us: seq<(int, bool)>): Tally
  {
    if us == [] then Empty
    else Recorded(Replayed(us[..|us| - 1]), us[|us| - 1].0, us[|us| - 1].1)
  }

  /** The number of updates in `us` at a score of at least `k`, with medication when `medicated`. */
  function UpdatesAtLeast(us: seq<(int, bool)>, k: int, medicated: bool): nat
  {
    if us == [] then 0
    else UpdatesAtLeast(us[..|us| - 1], k, medicated)
         + (if us[|us| - 1].0 >= k && (us[|us| - 1].1 || !medicated) then 1 else 0)
  }

  /**
   * `update` raises `total` at its score by one and `with_medication` there
   * by one exactly when the flag is set; every other score keeps its counts,
   * and a consistent rate stays consistent.
   */
  lemma RecordedEffect(t: Tally, score: int, hasMedication: bool, s: int)
    ensures Get(Recorded(t, score, hasMedication).total, s) == Get(t.total, s) + (if s == score then 1 else 0)
    ensures Get(Recorded(t, score, hasMedication).withMedication, s)
            == Get(t.withMedication, s) + (if s == score && hasMedication then 1 else 0)
    ensures Consistent(t) ==> Consistent(Recorded(t, score, hasMedication))
  {
  }

  /** Counts that differ at one key only: the sums differ there or not at all. */
  lemma {:induction false} AtLeastBump(scores: seq<int>, c: map<int, nat>, k: int, score: int)
    requires NoRepeats(scores)
    ensures score in scores ==>
              AtLeast(scores, c[score := Get(c, score) + 1], k) == AtLeast(scores, c, k) + (if score >= k then 1 else 0)
    ensures score !in scores ==> AtLeast(scores, c[score := Get(c, score) + 1], k) == AtLeast(scores, c, k)
  {
    if scores != [] {
      var init := scores[..|scores| - 1];
      AtLeastBump(init, c, k, score);
      assert score in scores <==> score in init || score == scores[|scores| - 1];
      if score == scores[|scores| - 1] {
        assert score !in init;
      }
    }
  }

  /** A key appended to the order adds its count when it is at least `k`. */
  lemma AtLeastAppend(scores: seq<int>, c: map<int, nat>, k: int, score: int)
    ensures AtLeast(scores + [score], c, k) == AtLeast(scores, c, k) + (if score >= k then Get(c, score) else 0)
  {
    assert (scores + [score])[..|scores|] == scores;
  }

  /** The scores of a rate hold no key twice. */
  predicate NoRepeats(scores: seq<int>)
  {
    forall i, j :: 0 <= i < j < |scores| ==> scores[i] != scores[j]
  }

  /** One update raises the total at scores of at least `k` by one when its score is at least `k`. */
  lemma TotalOfRecorded(t: Tally, score: int, hasMedication: bool, k: int)
    requires NoRepeats(t.scores) && (score in t.total <==> score in t.scores)
    ensures AtLeast(Recorded(t, score, hasMedication).scores, Recorded(t, score, hasMedication).total, k)
            == AtLeast(t.scores, t.total, k) + (if score >= k then 1 else 0)
  {
    var total := t.total[score := Get(t.total, score) + 1];
    AtLeastBump(t.scores, t.total, k, score);
    if score !in t.total {
      AtLeastAppend(t.scores, total, k, score);
    }
  }

  /** One update raises the medicated count at scores of at least `k` by one when it is medicated with such a score. */
  lemma MedicatedOfRecorded(t: Tally, score: int, hasMedication: bool, k: int)
    requires NoRepeats(t.scores) && (score in t.total <==> score in t.scores)
    requires score !in t.total ==> score !in t.withMedication
    ensures AtLeast(Recorded(t, score, hasMedication).scores, Recorded(t, score, hasMedication).withMedication, k)
            == AtLeast(t.scores, t.withMedication, k) + (if score >= k && hasMedication then 1 else 0)
  {
    var r := Recorded(t, score, hasMedication);
    if hasMedication {
      AtLeastBump(t.scores, t.withMedication, k, score);
    }
    if score !in t.total {
      AtLeastAppend(t.scores, r.withMedication, k, score);
    }
  }

  /**
   * One update moves `get_count_threshold(k)` by one diagnosis when its score
   * is at least `k`, counted with medication exactly when the flag is set.
   */
  lemma ThresholdOfRecorded(t: Tally, score: int, hasMedication: bool, k: int)
    requires Consistent(t)
    ensures Threshold(Recorded(t, score, hasMedication), k).0
            == Threshold(t, k).0 + (if score >= k && hasMedication then 1 else 0)
    ensures Threshold(Recorded(t, score, hasMedication), k).1 == Threshold(t, k).1 + (if score >= k then 1 else 0)
  {
    assert NoRepeats(t.scores) && (score in t.total <==> score in t.scores);
    assert score !in t.total ==> score !in t.withMedication;
    TotalOfRecorded(t, score, hasMedication, k);
    MedicatedOfRecorded(t, score, hasMedication, k);
  }

  /**
   * After any sequence of updates from a fresh rate, `get_count_threshold(k)`
   * counts exactly the updates at a score of at least `k`: those with
   * medication, and all of them.
   */
  lemma {:induction false} ThresholdCountsUpdates(us: seq<(int, bool)>, k: int)
    ensures Threshold(Replayed(us), k).0 == UpdatesAtLeast(us, k, true)
    ensures Threshold(Replayed(us), k).1 == UpdatesAtLeast(us, k, false)
  {
    if us != [] {
      var init, score, medicated := us[..|us| - 1], us[|us| - 1].0, us[|us| - 1].1;
      var t := Replayed(init);
      assert Replayed(us) == Recorded(t, score, medicated);
      ThresholdCountsUpdates(init, k);
      ReplayedConsistent(init);
      ThresholdOfRecorded(t, score, medicated, k);
      UpdatesAtLeastSnoc(us, k);
    }
  }

  /** One more update counts once among those at a score of at least `k`, and once with medication when it has it. */
  lemma UpdatesAtLeastSnoc(us: seq<(int, bool)>, k: int)
    requires us != []
    ensures var score, medicated := us[|us| - 1].0, us[|us| - 1].1;
            UpdatesAtLeast(us, k, true) == UpdatesAtLeast(us[..|us| - 1], k, true) + (if score >= k && medicated then 1 else 0)
            && UpdatesAtLeast(us, k, false) == UpdatesAtLeast(us[..|us| - 1], k, false) + (if score >= k then 1 else 0)
  {
  }

  /** A rate built by updates from a fresh one is consistent. */
  lemma {:induction false} ReplayedConsistent(us: seq<(int, bool)>)
    ensures Consistent(Replayed(us))
  {
    if us != [] {
      ReplayedConsistent(us[..|us| - 1]);
      RecordedEffect(Replayed(us[..|us| - 1]), us[|us| - 1].0, us[|us| - 1].1, 0);
    }
  }

  /** Every medication count is at most its total: the summed ones too. */
  lemma {:induction false} AtLeastBounded(scores: seq<int>, small: map<int, nat>, large: map<int, nat>, k: int)
    requires forall s :: Get(small, s) <= Get(large, s)
    ensures AtLeast(scores, small, k) <= AtLeast(scores, large, k)
  {
    if scores != [] {
      AtLeastBounded(scores[..|scores| - 1], small, large, k);
    }
  }

  /** Raising the threshold never raises a sum. */
  lemma {:induction false} AtLeastAntitone(scores: seq<int>, c: map<int, nat>, k1: int, k2: int)
    requires k1 <= k2
    ensures AtLeast(scores, c, k2) <= AtLeast(scores, c, k1)
  {
    if scores != [] {
      AtLeastAntitone(scores[..|scores| - 1], c, k1, k2);
    }
  }

  /**
   * `get_count_threshold`: the medication count never exceeds the total,
   * and raising the threshold never raises either count.
   */
  lemma ThresholdProperties(t: Tally, k1: int, k2: int)
    requires Consistent(t) && k1 <= k2
    ensures Threshold(t, k1).0 <= Threshold(t, k1).1
    ensures Threshold(t, k2).0 <= Threshold(t, k1).0 && Threshold(t, k2).1 <= Threshold(t, k1).1
  {
    forall s
      ensures Get(t.withMedication, s) <= Get(t.total, s)
    {
    }
    AtLeastBounded(t.scores, t.withMedication, t.total, k1);
    AtLeastAntitone(t.scores, t.withMedication, k1, k2);
    AtLeastAntitone(t.scores, t.total, k1, k2);
  }

  /** `MedicationRate`: the two counters, updated in place. */
  class MedicationRate {
    var scores: seq<int>
    var total: map<int, nat>
    var withMedication: map<int, nat>

    /** The counters as a value. */
    function Counts(): Tally
      reads this
    {
      Tally(scores, total, withMedication)
    }

    constructor ()
      ensures Counts() == Empty
    {
      scores := [];
      total := map[];
      withMedication := map[];
    }

    /** `update(score, has_medication)`. */
    method Update(score: int, hasMedication: bool)
      modifies this
      ensures Counts() == Recorded(old(Counts()), score, hasMedication)
    {
      if score !in total {
        scores := scores + [score];
      }
      total := total[score := Get(total, score) + 1];
      if hasMedication {
        withMedication := withMedication[score := Get(withMedication, score) + 1];
      }
    }

    /** `get_count_threshold(score)`: walks the keys of `total`, skipping those below `score`. */
    method GetCountThreshold(score: int) returns (medicated: int, all: int)
      ensures (medicated, all) == Threshold(Counts(), score)
    {
      medicated, all := 0, 0;
      for i := 0 to |scores|
        invariant medicated == AtLeast(scores[..i], withMedication, score)
        invariant all == AtLeast(scores[..i], total, score)
      {
        assert scores[..i + 1][..i] == scores[..i];
        var s := scores[i];
        if s < score {
          continue;
        }
        all := all + Get(total, s);
        medicated := medicated + Get(withMedication, s);
      }
      assert scores[..|scores|] == scores;
    }
  }

  /** The update counts of the practitioner-test rates. */
  lemma FixtureUpdateCounts(first: seq<(int, bool)>, second: seq<(int, bool)>)
    requires first == [(1, false), (2, false), (2, false), (2, false), (2, false)]
    requires second == [(2, true), (2, false)]
    ensures UpdatesAtLeast(first, 0, true) == 0 && UpdatesAtLeast(first, 0, false) == 5
    ensures UpdatesAtLeast(first, 2, true) == 0 && UpdatesAtLeast(first, 2, false) == 4
    ensures UpdatesAtLeast(second, 2, true) == 1 && UpdatesAtLeast(second, 2, false) == 2
    ensures UpdatesAtLeast(second, 3, true) == 0 && UpdatesAtLeast(second, 3, false) == 0
  {
    var p4, p3, p2, p1 := first[..4], first[..3], first[..2], first[..1];
    assert p4[..3] == p3 && p3[..2] == p2 && p2[..1] == p1 && p1[..0] == [];
    assert p1 == [(1, false)] && p2[1] == p3[2] == p4[3] == first[4] == (2, false);
    assert UpdatesAtLeast(p1, 0, false) == 1 && UpdatesAtLeast(p1, 2, false) == 0;
    assert UpdatesAtLeast(p1, 0, true) == 0 && UpdatesAtLeast(p1, 2, true) == 0;
    assert UpdatesAtLeast(p2, 0, false) == 2 && UpdatesAtLeast(p2, 2, false) == 1;
    assert UpdatesAtLeast(p2, 0, true) == 0 && UpdatesAtLeast(p2, 2, true) == 0;
    assert UpdatesAtLeast(p3, 0, false) == 3 && UpdatesAtLeast(p3, 2, false) == 2;
    assert UpdatesAtLeast(p3, 0, true) == 0 && UpdatesAtLeast(p3, 2, true) == 0;
    assert UpdatesAtLeast(p4, 0, false) == 4 && UpdatesAtLeast(p4, 2, false) == 3;
    assert UpdatesAtLeast(p4, 0, true) == 0 && UpdatesAtLeast(p4, 2, true) == 0;
    var q1 := second[..1];
    assert q1 == [(2, true)] && q1[..0] == [] && second[1] == (2, false);
    assert UpdatesAtLeast(q1, 2, true) == 1 && UpdatesAtLeast(q1, 2, false) == 1;
    assert UpdatesAtLeast(q1, 3, true) == 0 && UpdatesAtLeast(q1, 3, false) == 0;
  }

  /**
   * The rates of the practitioner tests: one diagnosis at score 1 and four
   * at score 2 without medication, and two at score 2 of which one with.
   */
  lemma MedicationRateFixture()
    ensures var first := [(1, false), (2, false), (2, false), (2, false), (2, false)];
            Threshold(Replayed(first), 0) == (0, 5) && Threshold(Replayed(first), 2) == (0, 4)
    ensures var second := [(2, true), (2, false)];
            Threshold(Replayed(second), 2) == (1, 2) && Threshold(Replayed(second), 3) == (0, 0)
  {
    var first := [(1, false), (2, false), (2, false), (2, false), (2, false)];
    var second := [(2, true), (2, false)];
    FixtureUpdateCounts(first, second);
    ThresholdCountsUpdates(first, 0);
    ThresholdCountsUpdates(first, 2);
    ThresholdCountsUpdates(second, 2);
    ThresholdCountsUpdates(second, 3);
  }
}
