/**
 * The interval merger of csv_reader/diagnose_csv.py: a patient's episodes
 * are grouped by disease, each group is sorted stably by start date and
 * folded into runs. A run grows while the next episode has the same
 * practitioner as the previous one and starts at most one day after the
 * run's end.
 */
module DiagnoseCsv {
  import opened Wrappers
  import opened Dates
  import opened Diseases
  import opened Diagnoses
  import opened StableSort

  /** How `remove_overlap` can fail: `start - timedelta(days=1)` on 0001-01-01, or `result[-1]` on an empty list. */
  datatype MergeError = DateUnderflow | EmptyResultIndex

  /** The loop's variables: `result`, `current_start`, `current_stop` and `prev`. */
  datatype MergeState = MergeState(result: seq<Diagnosis>, currentStart: Date, currentStop: Date, prev: Option<Diagnosis>)

  /** The sentinel both current dates start from, `datetime.date(1, 1, 1)`. */
  const Origin: Date := CalendarDate(1, 1, 1)

  const Initial := MergeState([], Origin, Origin, None)

  /**
   * The condition of the loop's `if`: a different practitioner than the
   * previous episode, or a start more than one day after the current run's
   * stop. None where evaluating it raises: `start - timedelta(days=1)` on
   * day number 1, 0001-01-01.
   */
  function OpensRun(st: MergeState, diag: Diagnosis): Option<bool>
  {
    if st.prev.Some? && st.prev.value.practitioner != diag.practitioner then Some(true)
    else if Ord(diag.start) == 1 then None
    else Some(Ord(diag.start) - 1 > Ord(st.currentStop))
  }

  /** The condition of the loop's `if`, where it can be evaluated. */
  predicate Opens(st: MergeState, diag: Diagnosis)
  {
    (st.prev.Some? && st.prev.value.practitioner != diag.practitioner)
    || Ord(diag.start) - 1 > Ord(st.currentStop)
  }

  /** One iteration of the loop of `remove_overlap`. */
  function Step(st: MergeState, diag: Diagnosis): (r: Result<MergeState, MergeError>)
    ensures r.Success? ==> r.value.prev == Some(diag) && r.value.result != []
                           && |st.result| <= |r.value.result| <= |st.result| + 1
    ensures r.Failure? ==> !Opens(st, diag)
  {
    OrdIsPositive(st.currentStop);
    match OpensRun(st, diag)
    case None => Failure(DateUnderflow)
    case Some(true) => Success(MergeState(st.result + [diag], diag.start, diag.end, Some(diag)))
    case Some(false) =>
      if st.result == [] then Failure(EmptyResultIndex)
      else
        var stop := Later(st.currentStop, diag.end);
        Success(MergeState(st.result[..|st.result| - 1] + [Diagnosis(diag.disease, st.currentStart, stop, diag.practitioner)],
                           st.currentStart, stop, Some(diag)))
  }

  /** The loop run over `s`, the first failure ending it. */
  function Fold(s: seq<Diagnosis>): (r: Result<MergeState, MergeError>)
    ensures r.Success? ==> |r.value.result| <= |s|
  {
    if s == [] then Success(Initial)
    else
      match Fold(s[..|s| - 1])
      case Failure(e) => Failure(e)
      case Success(st) => Step(st, s[|s| - 1])
  }

  /** `remove_overlap`: the fold over the episodes sorted stably by start date. */
  function Merged(diagnoses: seq<Diagnosis>): (r: Result<seq<Diagnosis>, MergeError>)
    ensures r.Success? ==> |r.value| <= |diagnoses| && (r.value == [] <==> diagnoses == [])
  {
    var sorted := SortByKey(diagnoses, StartKey);
    SortByKeyProperties(diagnoses, StartKey);
    match Fold(sorted)
    case Failure(e) => Failure(e)
    case Success(st) =>
      assert sorted != [] ==> st.result != [] by {
        if sorted != [] {
          FoldShape(sorted);
        }
      }
      Success(st.result)
  }

  /** Once the loop has failed, the rest of the input changes nothing. */
  lemma {:induction false} FailurePersists(s: seq<Diagnosis>, i: nat)
    requires i <= |s| && Fold(s[..i]).Failure?
    ensures Fold(s) == Fold(s[..i])
    decreases |s| - i
  {
    if i < |s| {
      assert s[..i + 1][..i] == s[..i];
      FailurePersists(s, i + 1);
    } else {
      assert s[..i] == s;
    }
  }

  /** The loop after `i + 1` episodes is one step after the loop after `i`. */
  lemma FoldOneMore(s: seq<Diagnosis>, i: nat, st: MergeState)
    requires i < |s| && Fold(s[..i]) == Success(st)
    ensures Fold(s[..i + 1]) == Step(st, s[i])
  {
    assert s[..i + 1][..i] == s[..i];
  }

  /** One pass of the loop of `remove_overlap` on the loop's variables, raising where the step does. */
  method LoopStep(result: seq<Diagnosis>, currentStart: Date, currentStop: Date, prev: Option<Diagnosis>, diag: Diagnosis)
    returns (r: Result<MergeState, MergeError>)
    ensures r == Step(MergeState(result, currentStart, currentStop, prev), diag)
  {
    var start, stop := diag.start, diag.end;
    var opens: bool;
    if prev.Some? && prev.value.practitioner != diag.practitioner {
      opens := true;
    } else {
      if Ord(start) == 1 {
        return Failure(DateUnderflow);
      }
      opens := Ord(start) - 1 > Ord(currentStop);
    }
    if opens {
      return Success(MergeState(result + [diag], start, stop, Some(diag)));
    }
    if result == [] {
      return Failure(EmptyResultIndex);
    }
    var newStop := Later(currentStop, stop);
    return Success(MergeState(result[..|result| - 1] + [Diagnosis(diag.disease, currentStart, newStop, diag.practitioner)],
                              currentStart, newStop, Some(diag)));
  }

  /** `remove_overlap`. */
  method RemoveOverlap(diagnoses: seq<Diagnosis>) returns (r: Result<seq<Diagnosis>, MergeError>)
    ensures r == Merged(diagnoses)
  {
    var sorted := SortByKey(diagnoses, StartKey);
    var result: seq<Diagnosis> := [];
    var currentStart, currentStop := Origin, Origin;
    var prev: Option<Diagnosis> := None;
    var i := 0;
    while i < |sorted|
      invariant 0 <= i <= |sorted|
      invariant Fold(sorted[..i]) == Success(MergeState(result, currentStart, currentStop, prev))
    {
      FoldOneMore(sorted, i, MergeState(result, currentStart, currentStop, prev));
      var next := LoopStep(result, currentStart, currentStop, prev, sorted[i]);
      if next.Failure? {
        FailurePersists(sorted, i + 1);
        assert sorted[..|sorted|] == sorted;
        return Failure(next.error);
      }
      result, currentStart, currentStop, prev := next.value.result, next.value.currentStart, next.value.currentStop, next.value.prev;
      i := i + 1;
    }
    assert sorted[..i] == sorted;
    r := Success(result);
  }

  /** Every episode starts on or after 0001-01-03, the condition under which the loop cannot raise. */
  predicate StartsLate(s: seq<Diagnosis>)
  {
    forall i :: 0 <= i < |s| ==> Ord(s[i].start) >= 3
  }

  /** `outer` spans every day `inner` does. */
  predicate Contains(outer: Diagnosis, inner: Diagnosis)
  {
    Ord(outer.start) <= Ord(inner.start) && Ord(inner.end) <= Ord(outer.end)
  }

  /** Day number `n` lies within some episode of `s`. */
  predicate CoveredDay(s: seq<Diagnosis>, n: int)
  {
    exists i :: 0 <= i < |s| && Ord(s[i].start) <= n <= Ord(s[i].end)
  }

  /** Every day of `o` lies within some episode of `s`. */
  predicate SpansOnly(s: seq<Diagnosis>, o: Diagnosis)
  {
    forall n :: Ord(o.start) <= n <= Ord(o.end) ==> CoveredDay(s, n)
  }

  /**
   * Neighbouring runs would not be merged again: they have different
   * practitioners, or a gap of at least one whole day lies between them.
   */
  predicate Separated(r: seq<Diagnosis>)
  {
    forall k :: 0 <= k < |r| - 1 ==>
      r[k].practitioner != r[k + 1].practitioner || Ord(r[k + 1].start) - 1 > Ord(r[k].end)
  }

  /** An episode that meets the condition is appended as a run of its own. */
  lemma StepOpens(st: MergeState, d: Diagnosis)
    requires Opens(st, d)
    ensures Step(st, d) == Success(MergeState(st.result + [d], d.start, d.end, Some(d)))
  {
    OrdIsPositive(st.currentStop);
  }

  /** An episode that misses the condition widens the last run to its own stop. */
  lemma StepMerges(st: MergeState, d: Diagnosis)
    requires !Opens(st, d) && Ord(d.start) != 1 && st.result != []
    ensures Step(st, d) == Success(MergeState(
              st.result[..|st.result| - 1] + [Diagnosis(d.disease, st.currentStart, Later(st.currentStop, d.end), d.practitioner)],
              st.currentStart, Later(st.currentStop, d.end), Some(d)))
  {
  }

  /** The two ways a step raises. */
  lemma StepFails(st: MergeState, d: Diagnosis)
    requires !Opens(st, d) && (Ord(d.start) == 1 || st.result == [])
    ensures Step(st, d).Failure?
  {
  }

  /** The fold over a non-empty sequence is one step after the fold over all but its last episode. */
  lemma FoldLast(s: seq<Diagnosis>)
    requires s != []
    ensures Fold(s) == if Fold(s[..|s| - 1]).Failure? then Fold(s[..|s| - 1])
                       else Step(Fold(s[..|s| - 1]).value, s[|s| - 1])
  {
  }

  /** The three ways a step can go, for lemmas that reason about one step of the loop. */
  lemma StepCases(st: MergeState, d: Diagnosis)
    ensures Opens(st, d) ==> Step(st, d) == Success(MergeState(st.result + [d], d.start, d.end, Some(d)))
    ensures !Opens(st, d) && Ord(d.start) != 1 && st.result != [] ==>
              Step(st, d) == Success(MergeState(
                st.result[..|st.result| - 1] + [Diagnosis(d.disease, st.currentStart, Later(st.currentStop, d.end), d.practitioner)],
                st.currentStart, Later(st.currentStop, d.end), Some(d)))
    ensures !Opens(st, d) && (Ord(d.start) == 1 || st.result == []) ==> Step(st, d).Failure?
  {
    if Opens(st, d) {
      StepOpens(st, d);
    } else if Ord(d.start) != 1 && st.result != [] {
      StepMerges(st, d);
    } else {
      StepFails(st, d);
    }
  }

  /** The last run is the one being grown, and `prev` is the last episode read. */
  lemma {:induction false} FoldShape(s: seq<Diagnosis>)
    requires s != [] && Fold(s).Success?
    ensures var st := Fold(s).value;
            1 <= |st.result| <= |s|
            && st.result[|st.result| - 1]
               == Diagnosis(s[|s| - 1].disease, st.currentStart, st.currentStop, s[|s| - 1].practitioner)
            && st.prev == Some(s[|s| - 1])
  {
    var p := s[..|s| - 1];
    FoldLast(s);
    StepCases(Fold(p).value, s[|s| - 1]);
    if p != [] {
      FoldShape(p);
    }
  }

  /** The first episode gets through the first step exactly when it starts on or after 0001-01-03. */
  lemma FirstStepSucceeds(d: Diagnosis)
    ensures Step(Initial, d).Success? <==> Ord(d.start) >= 3
  {
    StepCases(Initial, d);
  }

  /** Once a run is open, an episode starting late enough never makes the loop raise. */
  lemma LateStepSucceeds(st: MergeState, d: Diagnosis)
    requires st.result != [] && Ord(d.start) >= 3
    ensures Step(st, d).Success?
  {
    StepCases(st, d);
  }

  /** All of `p + [d]` starts late exactly when `p` does and `d` does. */
  lemma StartsLateSnoc(p: seq<Diagnosis>, d: Diagnosis)
    ensures StartsLate(p + [d]) <==> StartsLate(p) && Ord(d.start) >= 3
  {
    var s := p + [d];
    assert s[|p|] == d;
    if StartsLate(s) {
      forall i | 0 <= i < |p|
        ensures Ord(p[i].start) >= 3
      {
        assert s[i] == p[i];
      }
    }
  }

  /** On sorted input the loop raises exactly when some episode starts on 0001-01-01 or 0001-01-02. */
  lemma {:induction false} FoldSucceeds(s: seq<Diagnosis>)
    requires SortedBy(s, StartKey)
    ensures Fold(s).Success? <==> StartsLate(s)
  {
    if s != [] {
      var p, d := s[..|s| - 1], s[|s| - 1];
      assert s == p + [d];
      StartsLateSnoc(p, d);
      assert SortedBy(p, StartKey);
      FoldSucceeds(p);
      FoldLast(s);
      if Fold(p).Success? {
        if p == [] {
          FirstStepSucceeds(d);
        } else {
          FoldShape(p);
          assert StartKey(p[|p| - 1]) <= StartKey(d);
          assert Ord(p[|p| - 1].start) >= 3;
          LateStepSucceeds(Fold(p).value, d);
        }
      }
    }
  }

  /** The first run starts with the first episode, and the current run no later than the last one. */
  lemma {:induction false} FoldStarts(s: seq<Diagnosis>)
    requires SortedBy(s, StartKey) && s != [] && Fold(s).Success?
    ensures var st := Fold(s).value;
            st.result[0].start == s[0].start && Ord(st.currentStart) <= Ord(s[|s| - 1].start)
  {
    var p, d := s[..|s| - 1], s[|s| - 1];
    FoldLast(s);
    StepCases(Fold(p).value, d);
    if p != [] {
      assert SortedBy(p, StartKey);
      FoldStarts(p);
      FoldShape(p);
      assert StartKey(p[|p| - 1]) <= StartKey(d);
    }
  }

  /** Runs come out ordered by start date. */
  lemma {:induction false} FoldSorted(s: seq<Diagnosis>)
    requires SortedBy(s, StartKey) && s != [] && Fold(s).Success?
    ensures SortedBy(Fold(s).value.result, StartKey)
  {
    var p, d := s[..|s| - 1], s[|s| - 1];
    FoldLast(s);
    StepCases(Fold(p).value, d);
    if p != [] {
      assert SortedBy(p, StartKey);
      FoldSorted(p);
      FoldStarts(p);
      FoldShape(p);
      assert StartKey(p[|p| - 1]) <= StartKey(d);
      var st := Fold(p).value;
      if Opens(st, d) {
        SortedAppend(st.result, d, StartKey);
      } else {
        SortedReplaceLast(st.result, Fold(s).value.result[|st.result| - 1], StartKey);
      }
    }
  }

  /** Neighbouring runs are separated. */
  lemma {:induction false} FoldSeparated(s: seq<Diagnosis>)
    requires s != [] && Fold(s).Success?
    ensures Separated(Fold(s).value.result)
  {
    var p, d := s[..|s| - 1], s[|s| - 1];
    FoldLast(s);
    var st := Fold(p).value;
    if p == [] {
      StepCases(st, d);
    } else if Opens(st, d) {
      StepOpens(st, d);
      FoldSeparated(p);
      FoldShape(p);
      assert Fold(s).value.result == st.result + [d];
    } else {
      FoldShape(p);
      StepCases(st, d);
      FoldSeparated(p);
      var r, r' := st.result, Fold(s).value.result;
      assert r'[..|r| - 1] == r[..|r| - 1];
    }
  }

  /** Episode `x` lies within some run of `r`. */
  predicate InSomeRun(r: seq<Diagnosis>, x: Diagnosis)
  {
    exists k :: 0 <= k < |r| && Contains(r[k], x)
  }

  /** Every episode of `s` lies within some run of `r`. */
  predicate AllContained(r: seq<Diagnosis>, s: seq<Diagnosis>)
  {
    forall i :: 0 <= i < |s| ==> InSomeRun(r, s[i])
  }

  /** Opening a run for a new episode keeps every episode contained. */
  lemma ContainedAfterOpen(r: seq<Diagnosis>, p: seq<Diagnosis>, d: Diagnosis)
    requires AllContained(r, p)
    ensures AllContained(r + [d], p + [d])
  {
    var r', s := r + [d], p + [d];
    forall i | 0 <= i < |s|
      ensures InSomeRun(r', s[i])
    {
      if i < |p| {
        assert s[i] == p[i];
        assert InSomeRun(r, p[i]);
        var k :| 0 <= k < |r| && Contains(r[k], p[i]);
        assert r'[k] == r[k];
      } else {
        assert Contains(r'[|r|], s[i]);
      }
    }
  }

  /** Widening the last run to one that holds it and the new episode keeps every episode contained. */
  lemma ContainedAfterWiden(r: seq<Diagnosis>, p: seq<Diagnosis>, d: Diagnosis, o: Diagnosis)
    requires r != [] && AllContained(r, p)
    requires Contains(o, r[|r| - 1]) && Contains(o, d)
    ensures AllContained(r[..|r| - 1] + [o], p + [d])
  {
    var r', s := r[..|r| - 1] + [o], p + [d];
    forall i | 0 <= i < |s|
      ensures InSomeRun(r', s[i])
    {
      if i < |p| {
        assert s[i] == p[i];
        assert InSomeRun(r, p[i]);
        var k :| 0 <= k < |r| && Contains(r[k], p[i]);
        if k < |r| - 1 {
          assert r'[k] == r[k];
        } else {
          assert Contains(r'[|r| - 1], s[i]);
        }
      } else {
        assert Contains(r'[|r| - 1], s[i]);
      }
    }
  }

  /** The widened run holds the run it replaces and the episode that widened it. */
  lemma WidenedRunContains(st: MergeState, d: Diagnosis, last: Diagnosis)
    requires last.start == st.currentStart && last.end == st.currentStop
    requires Ord(st.currentStart) <= Ord(d.start)
    ensures var o := Diagnosis(d.disease, st.currentStart, Later(st.currentStop, d.end), d.practitioner);
            Contains(o, last) && Contains(o, d)
  {
  }

  /** Every episode lies within some run. */
  lemma {:induction false} FoldContains(s: seq<Diagnosis>)
    requires SortedBy(s, StartKey) && s != [] && Fold(s).Success?
    ensures AllContained(Fold(s).value.result, s)
  {
    var p, d := s[..|s| - 1], s[|s| - 1];
    assert s == p + [d];
    FoldLast(s);
    var st := Fold(p).value;
    assert Fold(s) == Step(st, d);
    if p == [] {
      assert st == Initial;
      StepCases(st, d);
      assert Opens(st, d);
      assert Fold(s).value.result == [] + [d];
      ContainedAfterOpen([], [], d);
    } else if Opens(st, d) {
      StepOpens(st, d);
      SortedInit(s, StartKey);
      FoldContains(p);
      ContainedAfterOpen(st.result, p, d);
    } else {
      SortedInit(s, StartKey);
      FoldContains(p);
      ContainedWidenStep(p, d);
    }
  }

  /** The widening step keeps every episode contained. */
  lemma ContainedWidenStep(p: seq<Diagnosis>, d: Diagnosis)
    requires SortedBy(p, StartKey) && p != [] && Fold(p).Success? && StartKey(p[|p| - 1]) <= StartKey(d)
    requires AllContained(Fold(p).value.result, p)
    requires !Opens(Fold(p).value, d) && Step(Fold(p).value, d).Success?
    ensures AllContained(Step(Fold(p).value, d).value.result, p + [d])
  {
    var st := Fold(p).value;
    FoldShape(p);
    FoldStarts(p);
    StepCases(st, d);
    var o := Diagnosis(d.disease, st.currentStart, Later(st.currentStop, d.end), d.practitioner);
    assert Step(st, d).value.result == st.result[..|st.result| - 1] + [o];
    WidenedRunContains(st, d, st.result[|st.result| - 1]);
    ContainedAfterWiden(st.result, p, d, o);
  }

  /** Every day of every run of `r` lies within some episode of `s`. */
  predicate AllSpanned(r: seq<Diagnosis>, s: seq<Diagnosis>)
  {
    forall k :: 0 <= k < |r| ==> SpansOnly(s, r[k])
  }

  /** A day within an episode of `p` is within an episode of `p + [d]`. */
  lemma CoveredInLonger(p: seq<Diagnosis>, d: Diagnosis, o: Diagnosis)
    requires SpansOnly(p, o)
    ensures SpansOnly(p + [d], o)
  {
    forall n | Ord(o.start) <= n <= Ord(o.end)
      ensures CoveredDay(p + [d], n)
    {
      assert CoveredDay(p, n);
      var i :| 0 <= i < |p| && Ord(p[i].start) <= n <= Ord(p[i].end);
      assert (p + [d])[i] == p[i];
    }
  }

  /** Runs spanned by a prefix are spanned by the whole. */
  lemma SpannedInLonger(r: seq<Diagnosis>, p: seq<Diagnosis>, d: Diagnosis)
    requires AllSpanned(r, p)
    ensures AllSpanned(r, p + [d])
  {
    forall k | 0 <= k < |r|
      ensures SpansOnly(p + [d], r[k])
    {
      CoveredInLonger(p, d, r[k]);
    }
  }

  /** Opening a run for a new episode keeps every run spanned. */
  lemma SpannedAfterOpen(r: seq<Diagnosis>, p: seq<Diagnosis>, d: Diagnosis)
    requires AllSpanned(r, p)
    ensures AllSpanned(r + [d], p + [d])
  {
    SpannedInLonger(r, p, d);
    var s := p + [d];
    forall n | Ord(d.start) <= n <= Ord(d.end)
      ensures CoveredDay(s, n)
    {
      assert s[|p|] == d;
    }
  }

  /**
   * Widening the last run up to the stop of an episode that starts at most
   * one day after the run's end keeps every run spanned.
   */
  lemma SpannedAfterWiden(r: seq<Diagnosis>, p: seq<Diagnosis>, d: Diagnosis, o: Diagnosis)
    requires r != [] && AllSpanned(r, p)
    requires o.start == r[|r| - 1].start && o.end == Later(r[|r| - 1].end, d.end)
    requires Ord(d.start) <= Ord(r[|r| - 1].end) + 1
    ensures AllSpanned(r[..|r| - 1] + [o], p + [d])
  {
    SpannedInLonger(r, p, d);
    var r', s := r[..|r| - 1] + [o], p + [d];
    forall k | 0 <= k < |r'|
      ensures SpansOnly(s, r'[k])
    {
      if k < |r| - 1 {
        assert r'[k] == r[k];
      } else {
        forall n | Ord(o.start) <= n <= Ord(o.end)
          ensures CoveredDay(s, n)
        {
          if n > Ord(r[|r| - 1].end) {
            assert s[|p|] == d;
          } else {
            assert SpansOnly(s, r[|r| - 1]);
          }
        }
      }
    }
  }

  /** Every day of every run lies within some episode: merging bridges no gap of a whole day. */
  lemma {:induction false} FoldCovers(s: seq<Diagnosis>)
    requires s != [] && Fold(s).Success?
    ensures AllSpanned(Fold(s).value.result, s)
  {
    var p, d := s[..|s| - 1], s[|s| - 1];
    assert s == p + [d];
    FoldLast(s);
    var st := Fold(p).value;
    StepCases(st, d);
    if p == [] {
      SpannedAfterOpen([], [], d);
    } else {
      FoldCovers(p);
      if Opens(st, d) {
        SpannedAfterOpen(st.result, p, d);
      } else {
        FoldShape(p);
        var r' := Fold(s).value.result;
        SpannedAfterWiden(st.result, p, d, r'[|r'| - 1]);
      }
    }
  }

  /** Run `o` carries the disease and the practitioner of some episode of `s`. */
  predicate FromSomeEpisode(s: seq<Diagnosis>, o: Diagnosis)
  {
    exists i :: 0 <= i < |s| && o.disease == s[i].disease && o.practitioner == s[i].practitioner
  }

  /** Every run of `r` carries the disease and the practitioner of some episode of `s`. */
  predicate AllFromEpisodes(r: seq<Diagnosis>, s: seq<Diagnosis>)
  {
    forall k :: 0 <= k < |r| ==> FromSomeEpisode(s, r[k])
  }

  /** Replacing or adding a last run labelled like the new episode keeps every run labelled by an episode. */
  lemma FromEpisodesAfterStep(r: seq<Diagnosis>, m: nat, p: seq<Diagnosis>, d: Diagnosis, o: Diagnosis)
    requires m <= |r| && AllFromEpisodes(r, p)
    requires o.disease == d.disease && o.practitioner == d.practitioner
    ensures AllFromEpisodes(r[..m] + [o], p + [d])
  {
    var r', s := r[..m] + [o], p + [d];
    forall k | 0 <= k < |r'|
      ensures FromSomeEpisode(s, r'[k])
    {
      if k < m {
        assert r'[k] == r[k];
        assert FromSomeEpisode(p, r[k]);
        var i :| 0 <= i < |p| && r[k].disease == p[i].disease && r[k].practitioner == p[i].practitioner;
        assert s[i] == p[i];
      } else {
        assert s[|p|] == d;
      }
    }
  }

  /** Every run carries the disease and the practitioner of one of the episodes. */
  lemma {:induction false} FoldOrigins(s: seq<Diagnosis>)
    requires s != [] && Fold(s).Success?
    ensures AllFromEpisodes(Fold(s).value.result, s)
  {
    var p, d := s[..|s| - 1], s[|s| - 1];
    assert s == p + [d];
    FoldLast(s);
    var st := Fold(p).value;
    if p == [] {
      StepCases(st, d);
      FromEpisodesAfterStep([], 0, [], d, d);
    } else if Opens(st, d) {
      StepOpens(st, d);
      FoldOrigins(p);
      assert st.result[..|st.result|] == st.result;
      FromEpisodesAfterStep(st.result, |st.result|, p, d, d);
    } else {
      FoldShape(p);
      StepCases(st, d);
      FoldOrigins(p);
      var r' := Fold(s).value.result;
      FromEpisodesAfterStep(st.result, |st.result| - 1, p, d, r'[|r'| - 1]);
    }
  }

  /** Runs that are separated and start late enough pass through the loop unchanged. */
  lemma {:induction false} FoldOfSeparated(r: seq<Diagnosis>)
    requires r != [] && Separated(r) && StartsLate(r)
    ensures Fold(r) == Success(MergeState(r, r[|r| - 1].start, r[|r| - 1].end, Some(r[|r| - 1])))
  {
    var p, d := r[..|r| - 1], r[|r| - 1];
    assert r == p + [d];
    FoldLast(r);
    if p == [] {
      assert Opens(Initial, d);
      StepOpens(Initial, d);
    } else {
      assert Separated(p) && StartsLate(p);
      FoldOfSeparated(p);
      var st := Fold(p).value;
      assert r[|r| - 2] == p[|p| - 1];
      assert Opens(st, d);
      StepOpens(st, d);
    }
  }

  /** Reordering episodes keeps them all starting late enough. */
  lemma StartsLateOfPermutation(a: seq<Diagnosis>, b: seq<Diagnosis>)
    requires multiset(a) == multiset(b) && StartsLate(a)
    ensures StartsLate(b)
  {
    forall i | 0 <= i < |b|
      ensures Ord(b[i].start) >= 3
    {
      assert b[i] in multiset(a);
      var j :| 0 <= j < |a| && a[j] == b[i];
    }
  }

  /** `remove_overlap` raises exactly when some episode starts on 0001-01-01 or 0001-01-02. */
  lemma MergedSucceeds(ds: seq<Diagnosis>)
    ensures Merged(ds).Success? <==> StartsLate(ds)
  {
    var s := SortByKey(ds, StartKey);
    SortByKeyProperties(ds, StartKey);
    FoldSucceeds(s);
    if StartsLate(ds) {
      StartsLateOfPermutation(ds, s);
    }
    if StartsLate(s) {
      StartsLateOfPermutation(s, ds);
    }
  }

  /**
   * The runs are no more than the episodes, ordered by start date, late
   * enough to be merged again, and separated from their neighbours.
   */
  lemma MergedRuns(ds: seq<Diagnosis>)
    requires Merged(ds).Success?
    ensures var r := Merged(ds).value;
            |r| <= |ds| && (r == [] <==> ds == [])
            && SortedBy(r, StartKey) && Separated(r) && StartsLate(r)
  {
    var s := SortByKey(ds, StartKey);
    SortByKeyProperties(ds, StartKey);
    if s != [] {
      FoldShape(s);
      FoldSorted(s);
      FoldSeparated(s);
      FoldStarts(s);
      FoldSucceeds(s);
      var r := Merged(ds).value;
      assert StartKey(r[0]) == StartKey(s[0]);
    }
  }

  /** Every episode lies within some run of `remove_overlap`'s result. */
  lemma MergedContains(ds: seq<Diagnosis>)
    requires Merged(ds).Success?
    ensures AllContained(Merged(ds).value, ds)
  {
    var s := SortByKey(ds, StartKey);
    SortByKeyProperties(ds, StartKey);
    var r := Merged(ds).value;
    if s != [] {
      FoldContains(s);
      forall i | 0 <= i < |ds|
        ensures InSomeRun(r, ds[i])
      {
        assert ds[i] in multiset(s);
        var j :| 0 <= j < |s| && s[j] == ds[i];
      }
    }
  }

  /** A day within an episode of `a` is within an episode of any reordering of `a`. */
  lemma SpannedOfPermutation(r: seq<Diagnosis>, a: seq<Diagnosis>, b: seq<Diagnosis>)
    requires multiset(a) == multiset(b) && AllSpanned(r, a)
    ensures AllSpanned(r, b)
  {
    forall k | 0 <= k < |r|
      ensures SpansOnly(b, r[k])
    {
      forall n | Ord(r[k].start) <= n <= Ord(r[k].end)
        ensures CoveredDay(b, n)
      {
        assert SpansOnly(a, r[k]);
        assert CoveredDay(a, n);
        var i :| 0 <= i < |a| && Ord(a[i].start) <= n <= Ord(a[i].end);
        assert a[i] in multiset(b);
        var j :| 0 <= j < |b| && b[j] == a[i];
      }
    }
  }

  /** Every day of every run of `remove_overlap`'s result lies within some episode. */
  lemma MergedCovers(ds: seq<Diagnosis>)
    requires Merged(ds).Success?
    ensures AllSpanned(Merged(ds).value, ds)
  {
    var s := SortByKey(ds, StartKey);
    SortByKeyProperties(ds, StartKey);
    if s != [] {
      FoldCovers(s);
      SpannedOfPermutation(Merged(ds).value, s, ds);
    }
  }

  /** Every run of `remove_overlap`'s result carries the disease and practitioner of some episode. */
  lemma MergedOrigins(ds: seq<Diagnosis>)
    requires Merged(ds).Success?
    ensures AllFromEpisodes(Merged(ds).value, ds)
  {
    var s := SortByKey(ds, StartKey);
    SortByKeyProperties(ds, StartKey);
    var r := Merged(ds).value;
    if s != [] {
      FoldOrigins(s);
      forall k | 0 <= k < |r|
        ensures FromSomeEpisode(ds, r[k])
      {
        assert FromSomeEpisode(s, r[k]);
        var i :| 0 <= i < |s| && r[k].disease == s[i].disease && r[k].practitioner == s[i].practitioner;
        assert s[i] in multiset(ds);
        var j :| 0 <= j < |ds| && ds[j] == s[i];
      }
    }
  }

  /** Merging the result of `remove_overlap` again changes nothing. */
  lemma MergedIsIdempotent(ds: seq<Diagnosis>)
    requires Merged(ds).Success?
    ensures Merged(Merged(ds).value) == Merged(ds)
  {
    var r := Merged(ds).value;
    MergedRuns(ds);
    SortByKeyOfSorted(r, StartKey);
    if r != [] {
      FoldOfSeparated(r);
    }
  }

  /** The identities of the diseases in `ds`, in order of first appearance (the keys of `group_diagnoses`'s dict). */
  function DistinctIds(ds: seq<Diagnosis>): seq<DiseaseId>
  {
    if ds == [] then []
    else
      var rest := DistinctIds(ds[..|ds| - 1]);
      var id := ds[|ds| - 1].disease.Id();
      if id in rest then rest else rest + [id]
  }

  /** The keys are exactly the identities present, each once. */
  lemma {:induction false} DistinctIdsProperties(ds: seq<Diagnosis>)
    ensures var ids := DistinctIds(ds);
            (forall i :: 0 <= i < |ds| ==> ds[i].disease.Id() in ids)
            && (forall id :: id in ids ==> exists i :: 0 <= i < |ds| && ds[i].disease.Id() == id)
            && (forall j, k :: 0 <= j < k < |ids| ==> ids[j] != ids[k])
  {
    if ds != [] {
      var p := ds[..|ds| - 1];
      DistinctIdsProperties(p);
      assert forall i :: 0 <= i < |p| ==> ds[i] == p[i];
    }
  }

  /** The episodes of `ds` whose disease is `id`, in their order in `ds`. */
  function OfDisease(ds: seq<Diagnosis>, id: DiseaseId): seq<Diagnosis>
  {
    if ds == [] then []
    else OfDisease(ds[..|ds| - 1], id) + (if ds[|ds| - 1].disease.Id() == id then [ds[|ds| - 1]] else [])
  }

  /** One group per identity in `ids`. */
  function GroupsFor(ds: seq<Diagnosis>, ids: seq<DiseaseId>): (groups: seq<seq<Diagnosis>>)
    ensures |groups| == |ids|
    ensures forall k :: 0 <= k < |ids| ==> groups[k] == OfDisease(ds, ids[k])
  {
    if ids == [] then [] else GroupsFor(ds, ids[..|ids| - 1]) + [OfDisease(ds, ids[|ids| - 1])]
  }

  /**
   * `groups` splits `ds` by disease: each group is non-empty and holds
   * episodes of one disease only, no disease has two groups, and every
   * episode is in some group.
   */
  predicate SplitByDisease(ds: seq<Diagnosis>, groups: seq<seq<Diagnosis>>)
  {
    (forall k :: 0 <= k < |groups| ==> groups[k] != [])
    && (forall k, i :: 0 <= k < |groups| && 0 <= i < |groups[k]| ==> groups[k][i].disease.Id() == groups[k][0].disease.Id())
    && (forall j, k :: 0 <= j < k < |groups| ==> groups[j][0].disease.Id() != groups[k][0].disease.Id())
    && (forall i :: 0 <= i < |ds| ==> exists k :: 0 <= k < |groups| && ds[i] in groups[k])
  }

  /** `group_diagnoses`: the episodes split by disease, the groups in order of first appearance. */
  function Grouped(ds: seq<Diagnosis>): (groups: seq<seq<Diagnosis>>)
    ensures SplitByDisease(ds, groups)
  {
    GroupsArePartition(ds);
    GroupsFor(ds, DistinctIds(ds))
  }

  /**
   * Each group is non-empty and holds episodes of its own disease only, no
   * disease has two groups, and every episode is in some group.
   */
  lemma GroupsArePartition(ds: seq<Diagnosis>)
    ensures var ids := DistinctIds(ds);
            var groups := GroupsFor(ds, ids);
            (forall k :: 0 <= k < |groups| ==> groups[k] != [] && groups[k][0].disease.Id() == ids[k])
            && (forall k, i :: 0 <= k < |groups| && 0 <= i < |groups[k]| ==> groups[k][i].disease.Id() == ids[k])
            && (forall j, k :: 0 <= j < k < |ids| ==> ids[j] != ids[k])
            && (forall i :: 0 <= i < |ds| ==> exists k :: 0 <= k < |groups| && ds[i] in groups[k])
  {
    var ids := DistinctIds(ds);
    var groups: seq<seq<Diagnosis>> := GroupsFor(ds, ids);
    DistinctIdsProperties(ds);
    forall k | 0 <= k < |groups|
      ensures groups[k] != [] && forall i :: 0 <= i < |groups[k]| ==> groups[k][i].disease.Id() == ids[k]
    {
      assert ids[k] in ids;
      GroupIsUniform(ds, ids[k]);
    }
    forall i | 0 <= i < |ds|
      ensures exists k :: 0 <= k < |groups| && ds[i] in groups[k]
    {
      var k :| 0 <= k < |ids| && ids[k] == ds[i].disease.Id();
      OfDiseaseMembers(ds, ids[k]);
      assert ds[i] in groups[k];
    }
  }

  /** The group of a disease present in `ds` is non-empty and holds that disease only. */
  lemma GroupIsUniform(ds: seq<Diagnosis>, id: DiseaseId)
    requires exists i :: 0 <= i < |ds| && ds[i].disease.Id() == id
    ensures var g := OfDisease(ds, id);
            g != [] && forall i :: 0 <= i < |g| ==> g[i].disease.Id() == id
  {
    var g := OfDisease(ds, id);
    OfDiseaseMembers(ds, id);
    var i :| 0 <= i < |ds| && ds[i].disease.Id() == id;
    assert ds[i] in g;
    forall j | 0 <= j < |g|
      ensures g[j].disease.Id() == id
    {
      assert g[j] in g;
    }
  }

  /** Filtering distributes over concatenation. */
  lemma {:induction false} OfDiseaseAppend(a: seq<Diagnosis>, b: seq<Diagnosis>, id: DiseaseId)
    ensures OfDisease(a + b, id) == OfDisease(a, id) + OfDisease(b, id)
    decreases |b|
  {
    if b != [] {
      assert (a + b)[..|a + b| - 1] == a + b[..|b| - 1];
      OfDiseaseAppend(a, b[..|b| - 1], id);
    } else {
      assert a + b == a;
    }
  }

  /** Exactly the episodes of `ds` with disease `id` pass the filter. */
  lemma {:induction false} OfDiseaseMembers(ds: seq<Diagnosis>, id: DiseaseId)
    ensures forall x :: x in OfDisease(ds, id) <==> x in ds && x.disease.Id() == id
  {
    if ds != [] {
      OfDiseaseMembers(ds[..|ds| - 1], id);
      assert ds == ds[..|ds| - 1] + [ds[|ds| - 1]];
    }
  }

  /** A sequence whose episodes all have disease `id` passes the filter whole, and one without any passes nothing. */
  lemma {:induction false} OfDiseaseOfUniform(s: seq<Diagnosis>, id: DiseaseId, other: DiseaseId)
    requires forall i :: 0 <= i < |s| ==> s[i].disease.Id() == id
    ensures OfDisease(s, id) == s
    ensures other != id ==> OfDisease(s, other) == []
  {
    if s != [] {
      OfDiseaseOfUniform(s[..|s| - 1], id, other);
      assert s == s[..|s| - 1] + [s[|s| - 1]];
    }
  }

  /** No episode of disease `id`, nothing passes the filter. */
  lemma {:induction false} OfDiseaseAbsent(ds: seq<Diagnosis>, id: DiseaseId)
    requires forall i :: 0 <= i < |ds| ==> ds[i].disease.Id() != id
    ensures OfDisease(ds, id) == []
  {
    if ds != [] {
      OfDiseaseAbsent(ds[..|ds| - 1], id);
    }
  }

  /** The dict after `i` episodes: its keys in insertion order and the group of each. */
  ghost predicate IndexAfter(ds: seq<Diagnosis>, i: nat, order: seq<DiseaseId>, dct: map<DiseaseId, seq<Diagnosis>>)
    requires i <= |ds|
  {
    order == DistinctIds(ds[..i])
    && (forall id :: id in dct <==> id in order)
    && (forall id :: id in order ==> dct[id] == OfDisease(ds[..i], id))
  }

  /** One iteration of the loop of `group_diagnoses` keeps the dict in step with the episodes read. */
  lemma IndexStep(ds: seq<Diagnosis>, i: nat, order: seq<DiseaseId>, dct: map<DiseaseId, seq<Diagnosis>>)
    requires i < |ds| && IndexAfter(ds, i, order, dct)
    ensures var id := ds[i].disease.Id();
            var order1 := if id in dct then order else order + [id];
            var dct1 := if id in dct then dct else dct[id := []];
            IndexAfter(ds, i + 1, order1, dct1[id := dct1[id] + [ds[i]]])
  {
    var p := ds[..i + 1];
    assert p[..i] == ds[..i];
    var id := ds[i].disease.Id();
    var order1 := if id in dct then order else order + [id];
    var dct1 := if id in dct then dct else dct[id := []];
    var dct2 := dct1[id := dct1[id] + [ds[i]]];
    assert DistinctIds(p) == order1;
    if id !in dct {
      DistinctIdsProperties(ds[..i]);
      OfDiseaseAbsent(ds[..i], id);
    }
    assert dct1[id] == OfDisease(ds[..i], id);
    forall other | other in order1
      ensures dct2[other] == OfDisease(p, other)
    {
      assert OfDisease(p, other) == OfDisease(ds[..i], other) + (if id == other then [ds[i]] else []);
    }
  }

  /** `group_diagnoses` builds its dict in one pass and returns its values. */
  method GroupDiagnoses(diseases: seq<Diagnosis>) returns (groups: seq<seq<Diagnosis>>)
    ensures groups == Grouped(diseases)
  {
    var order: seq<DiseaseId> := [];
    var dct: map<DiseaseId, seq<Diagnosis>> := map[];
    for i := 0 to |diseases|
      invariant IndexAfter(diseases, i, order, dct)
    {
      var d := diseases[i];
      IndexStep(diseases, i, order, dct);
      var id := d.disease.Id();
      if id !in dct {
        order := order + [id];
        dct := dct[id := []];
      }
      dct := dct[id := dct[id] + [d]];
    }
    assert diseases[..|diseases|] == diseases;
    groups := [];
    for j := 0 to |order|
      invariant groups == GroupsFor(diseases, order[..j])
    {
      assert order[..j + 1][..j] == order[..j];
      groups := groups + [dct[order[j]]];
    }
    assert order[..|order|] == order;
  }

  /**
   * The inner loop of `merge_overlapping_diagnoses`: each group merged by
   * `merge` (which is `remove_overlap`) and the results concatenated, or
   * the first error.
   */
  function MergeGroups(groups: seq<seq<Diagnosis>>, merge: seq<Diagnosis> -> Result<seq<Diagnosis>, MergeError>): Result<seq<Diagnosis>, MergeError>
  {
    if groups == [] then Success([])
    else
      match MergeGroups(groups[..|groups| - 1], merge)
      case Failure(e) => Failure(e)
      case Success(acc) =>
        match merge(groups[|groups| - 1])
        case Failure(e) => Failure(e)
        case Success(r) => Success(acc + r)
  }

  /** What `merge_overlapping_diagnoses` stores for one patient. */
  function PatientMerged(ds: seq<Diagnosis>): Result<seq<Diagnosis>, MergeError>
  {
    MergeGroups(Grouped(ds), Merged)
  }

  /** `merge` labels each run it returns by one of the episodes it was given. */
  ghost predicate LabelsRuns(merge: seq<Diagnosis> -> Result<seq<Diagnosis>, MergeError>)
  {
    forall g :: merge(g).Success? ==> AllFromEpisodes(merge(g).value, g)
  }

  /** `remove_overlap` labels each run by one of its episodes. */
  lemma MergedLabelsRuns()
    ensures LabelsRuns(Merged)
  {
    forall g | Merged(g).Success?
      ensures AllFromEpisodes(Merged(g).value, g)
    {
      MergedOrigins(g);
    }
  }

  /** `remove_overlap` succeeds exactly on episodes that start late enough. */
  lemma MergedSucceedsEverywhere()
    ensures forall g :: Merged(g).Success? <==> StartsLate(g)
  {
    forall g
      ensures Merged(g).Success? <==> StartsLate(g)
    {
      MergedSucceeds(g);
    }
  }

  /** `StartsLate`, stated over members rather than positions. */
  lemma StartsLateMembers(s: seq<Diagnosis>)
    ensures StartsLate(s) <==> forall x :: x in s ==> Ord(x.start) >= 3
  {
  }

  /** Runs labelled by episodes of one disease all have that disease. */
  lemma RunsKeepDisease(g: seq<Diagnosis>, r: seq<Diagnosis>, id: DiseaseId)
    requires AllFromEpisodes(r, g)
    requires forall x :: x in g ==> x.disease.Id() == id
    ensures forall k :: 0 <= k < |r| ==> r[k].disease.Id() == id
  {
    forall k | 0 <= k < |r|
      ensures r[k].disease.Id() == id
    {
      assert FromSomeEpisode(g, r[k]);
      var i :| 0 <= i < |g| && r[k].disease == g[i].disease && r[k].practitioner == g[i].practitioner;
      assert g[i] in g;
    }
  }

  /** The merged groups succeed exactly when every group starts late enough. */
  lemma {:induction false} MergeGroupsSucceeds(ds: seq<Diagnosis>, ids: seq<DiseaseId>,
                                               merge: seq<Diagnosis> -> Result<seq<Diagnosis>, MergeError>)
    requires forall g :: merge(g).Success? <==> StartsLate(g)
    ensures MergeGroups(GroupsFor(ds, ids), merge).Success? <==> forall k :: 0 <= k < |ids| ==> StartsLate(OfDisease(ds, ids[k]))
  {
    if ids != [] {
      var q := ids[..|ids| - 1];
      var groups := GroupsFor(ds, ids);
      assert groups[..|groups| - 1] == GroupsFor(ds, q);
      MergeGroupsSucceeds(ds, q, merge);
      assert forall k :: 0 <= k < |q| ==> q[k] == ids[k];
    }
  }

  /** Merging one more group appends its runs, if everything succeeds. */
  lemma MergeGroupsSnoc(groups: seq<seq<Diagnosis>>, g: seq<Diagnosis>,
                        merge: seq<Diagnosis> -> Result<seq<Diagnosis>, MergeError>)
    requires MergeGroups(groups + [g], merge).Success?
    ensures MergeGroups(groups, merge).Success? && merge(g).Success?
    ensures MergeGroups(groups + [g], merge).value == MergeGroups(groups, merge).value + merge(g).value
  {
    assert (groups + [g])[..|groups|] == groups;
  }

  /** Filtering after appending runs all of disease `last`. */
  lemma OfDiseaseAppendUniform(acc: seq<Diagnosis>, r: seq<Diagnosis>, id: DiseaseId, last: DiseaseId)
    requires forall k :: 0 <= k < |r| ==> r[k].disease.Id() == last
    ensures OfDisease(acc + r, id) == OfDisease(acc, id) + (if id == last then r else [])
  {
    OfDiseaseAppend(acc, r, id);
    OfDiseaseOfUniform(r, last, id);
  }

  /** Merging the groups for distinct identities merges each disease on its own. */
  lemma {:induction false} MergeGroupsFor(ds: seq<Diagnosis>, ids: seq<DiseaseId>, id: DiseaseId,
                                          merge: seq<Diagnosis> -> Result<seq<Diagnosis>, MergeError>)
    requires LabelsRuns(merge)
    requires forall j, k :: 0 <= j < k < |ids| ==> ids[j] != ids[k]
    requires MergeGroups(GroupsFor(ds, ids), merge).Success?
    ensures id !in ids ==> OfDisease(MergeGroups(GroupsFor(ds, ids), merge).value, id) == []
    ensures id in ids ==>
              merge(OfDisease(ds, id)).Success?
              && OfDisease(MergeGroups(GroupsFor(ds, ids), merge).value, id) == merge(OfDisease(ds, id)).value
  {
    if ids != [] {
      var q, last := ids[..|ids| - 1], ids[|ids| - 1];
      assert ids == q + [last];
      assert last !in q;
      var g := OfDisease(ds, last);
      assert GroupsFor(ds, ids) == GroupsFor(ds, q) + [g];
      MergeGroupsSnoc(GroupsFor(ds, q), g, merge);
      var acc := MergeGroups(GroupsFor(ds, q), merge).value;
      var r := merge(g).value;
      MergeGroupsFor(ds, q, id, merge);
      assert forall k :: 0 <= k < |r| ==> r[k].disease.Id() == last by {
        assert AllFromEpisodes(r, g);
        OfDiseaseMembers(ds, last);
        RunsKeepDisease(g, r, last);
      }
      OfDiseaseAppendUniform(acc, r, id, last);
    }
  }

  /**
   * `merge_overlapping_diagnoses` for one patient raises exactly when an
   * episode starts on 0001-01-01 or 0001-01-02; otherwise the episodes it
   * keeps of each disease are that disease's episodes merged by `remove_overlap`.
   */
  lemma PatientMergedPerDisease(ds: seq<Diagnosis>, id: DiseaseId)
    ensures PatientMerged(ds).Success? <==> StartsLate(ds)
    ensures PatientMerged(ds).Success? ==>
              Merged(OfDisease(ds, id)).Success?
              && OfDisease(PatientMerged(ds).value, id) == Merged(OfDisease(ds, id)).value
  {
    var ids := DistinctIds(ds);
    DistinctIdsProperties(ds);
    MergedSucceedsEverywhere();
    MergedLabelsRuns();
    MergeGroupsSucceeds(ds, ids, Merged);
    if PatientMerged(ds).Success? {
      MergeGroupsFor(ds, ids, id, Merged);
    }
    StartsLateMembers(ds);
    forall k | 0 <= k < |ids|
      ensures StartsLate(ds) ==> StartsLate(OfDisease(ds, ids[k]))
    {
      OfDiseaseMembers(ds, ids[k]);
      StartsLateMembers(OfDisease(ds, ids[k]));
    }
    if forall k :: 0 <= k < |ids| ==> StartsLate(OfDisease(ds, ids[k])) {
      forall x | x in ds
        ensures Ord(x.start) >= 3
      {
        var k :| 0 <= k < |ids| && ids[k] == x.disease.Id();
        OfDiseaseMembers(ds, ids[k]);
        StartsLateMembers(OfDisease(ds, ids[k]));
      }
    }
    if id !in ids {
      OfDiseaseAbsent(ds, id);
    }
    MergedSucceeds(OfDisease(ds, id));
  }

  /** Once merging the groups has failed, later groups change nothing. */
  lemma {:induction false} MergeGroupsFailurePersists(groups: seq<seq<Diagnosis>>, j: nat,
                                                      merge: seq<Diagnosis> -> Result<seq<Diagnosis>, MergeError>)
    requires j <= |groups| && MergeGroups(groups[..j], merge).Failure?
    ensures MergeGroups(groups, merge) == MergeGroups(groups[..j], merge)
    decreases |groups| - j
  {
    if j < |groups| {
      assert groups[..j + 1][..j] == groups[..j];
      MergeGroupsFailurePersists(groups, j + 1, merge);
    } else {
      assert groups[..j] == groups;
    }
  }

  /**
   * `merge_overlapping_diagnoses` over the dict from patient number to
   * episodes, in the dict's order: every patient's episodes replaced by
   * their merge, or the first error raised.
   */
  function MergedRecords(records: seq<(int, seq<Diagnosis>)>): Result<seq<(int, seq<Diagnosis>)>, MergeError>
  {
    if records == [] then Success([])
    else
      match MergedRecords(records[..|records| - 1])
      case Failure(e) => Failure(e)
      case Success(done) =>
        match PatientMerged(records[|records| - 1].1)
        case Failure(e) => Failure(e)
        case Success(ds) => Success(done + [(records[|records| - 1].0, ds)])
  }

  /** Once a patient has failed, later patients change nothing. */
  lemma {:induction false} RecordsFailurePersists(records: seq<(int, seq<Diagnosis>)>, i: nat)
    requires i <= |records| && MergedRecords(records[..i]).Failure?
    ensures MergedRecords(records) == MergedRecords(records[..i])
    decreases |records| - i
  {
    if i < |records| {
      assert records[..i + 1][..i] == records[..i];
      RecordsFailurePersists(records, i + 1);
    } else {
      assert records[..i] == records;
    }
  }

  /**
   * The patients keep their numbers and their order, each patient's
   * episodes are replaced by their merge, and the whole fails exactly when
   * some patient has an episode starting on 0001-01-01 or 0001-01-02.
   */
  lemma {:induction false} MergedRecordsShape(records: seq<(int, seq<Diagnosis>)>)
    ensures MergedRecords(records).Success? <==> forall i :: 0 <= i < |records| ==> StartsLate(records[i].1)
    ensures MergedRecords(records).Success? ==>
              var r := MergedRecords(records).value;
              |r| == |records|
              && forall i :: 0 <= i < |records| ==>
                   r[i].0 == records[i].0 && PatientMerged(records[i].1) == Success(r[i].1)
  {
    if records != [] {
      var p, last := records[..|records| - 1], records[|records| - 1];
      assert records == p + [last];
      MergedRecordsShape(p);
      PatientMergedPerDisease(last.1, DiseaseId("", ""));
    }
  }

  /** The body of `merge_overlapping_diagnoses` for one patient: the groups merged in turn and their runs concatenated. */
  method MergePatient(ds: seq<Diagnosis>) returns (r: Result<seq<Diagnosis>, MergeError>)
    ensures r == PatientMerged(ds)
  {
    var continuous: seq<Diagnosis> := [];
    var groups := GroupDiagnoses(ds);
    for j := 0 to |groups|
      invariant MergeGroups(groups[..j], Merged) == Success(continuous)
    {
      var merged := RemoveOverlap(groups[j]);
      if merged.Failure? {
        assert groups[..j + 1][..j] == groups[..j];
        MergeGroupsFailurePersists(groups, j + 1, Merged);
        return Failure(merged.error);
      }
      MergeGroupsStep(groups, j, continuous);
      continuous := continuous + merged.value;
    }
    assert groups[..|groups|] == groups;
    r := Success(continuous);
  }

  /** Merging one more group successfully appends its runs to those of the groups before it. */
  lemma MergeGroupsStep(groups: seq<seq<Diagnosis>>, j: nat, acc: seq<Diagnosis>)
    requires j < |groups| && MergeGroups(groups[..j], Merged) == Success(acc) && Merged(groups[j]).Success?
    ensures MergeGroups(groups[..j + 1], Merged) == Success(acc + Merged(groups[j]).value)
  {
    assert groups[..j + 1][..j] == groups[..j];
  }

  /** Replacing the next patient's episodes by their merge extends the merged prefix by one patient. */
  lemma RecordReplaced(diagnoses: seq<(int, seq<Diagnosis>)>, records: seq<(int, seq<Diagnosis>)>, i: nat, ds: seq<Diagnosis>)
    requires i < |records| == |diagnoses| && records[i..] == diagnoses[i..]
    requires MergedRecords(diagnoses[..i]) == Success(records[..i])
    requires PatientMerged(diagnoses[i].1) == Success(ds)
    ensures records[i] == diagnoses[i]
    ensures var r := records[i := (records[i].0, ds)];
            r[i + 1..] == diagnoses[i + 1..] && MergedRecords(diagnoses[..i + 1]) == Success(r[..i + 1])
  {
    assert records[i..][0] == diagnoses[i..][0];
    assert diagnoses[..i + 1][..i] == diagnoses[..i];
    var r := records[i := (records[i].0, ds)];
    assert r[..i + 1] == records[..i] + [(diagnoses[i].0, ds)];
    assert r[i + 1..] == records[i + 1..];
    assert records[i + 1..] == records[i..][1..];
    assert diagnoses[i + 1..] == diagnoses[i..][1..];
  }

  /** `merge_overlapping_diagnoses`: each patient's episodes replaced in turn by their merge. */
  method MergeOverlappingDiagnoses(diagnoses: seq<(int, seq<Diagnosis>)>)
    returns (r: Result<seq<(int, seq<Diagnosis>)>, MergeError>)
    ensures r == MergedRecords(diagnoses)
  {
    var records := diagnoses;
    for i := 0 to |diagnoses|
      invariant |records| == |diagnoses|
      invariant records[i..] == diagnoses[i..]
      invariant MergedRecords(diagnoses[..i]) == Success(records[..i])
    {
      assert records[i..][0] == diagnoses[i..][0];
      var merged := MergePatient(records[i].1);
      if merged.Failure? {
        assert diagnoses[..i + 1][..i] == diagnoses[..i];
        RecordsFailurePersists(diagnoses, i + 1);
        assert diagnoses[..|diagnoses|] == diagnoses;
        return Failure(merged.error);
      }
      RecordReplaced(diagnoses, records, i, merged.value);
      records := records[i := (records[i].0, merged.value)];
    }
    assert diagnoses[..|diagnoses|] == diagnoses;
    assert records[..|records|] == records;
    r := Success(records);
  }

  /** The loop over three episodes is its three steps in turn. */
  lemma FoldOfThree(s: seq<Diagnosis>, st1: MergeState, st2: MergeState, st3: MergeState)
    requires |s| == 3
    requires Step(Initial, s[0]) == Success(st1) && Step(st1, s[1]) == Success(st2) && Step(st2, s[2]) == Success(st3)
    ensures Fold(s) == Success(st3)
  {
    assert s[..1][..0] == [];
    assert Fold(s[..1]) == Success(st1);
    assert s[..2][..1] == s[..1];
    assert Fold(s[..2]) == Success(st2);
    assert s[..3][..2] == s[..2] && s[..3] == s;
  }

  /** On input already sorted by start date, the merge is the fold itself. */
  lemma MergedOfSorted(s: seq<Diagnosis>, st: MergeState)
    requires SortedBy(s, StartKey) && Fold(s) == Success(st)
    ensures Merged(s) == Success(st.result)
  {
    SortByKeyOfSorted(s, StartKey);
  }

  /** Three episodes in order of start date are sorted. */
  lemma SortedThree(a: Diagnosis, b: Diagnosis, c: Diagnosis)
    requires StartKey(a) <= StartKey(b) <= StartKey(c)
    ensures SortedBy([a, b, c], StartKey)
  {
  }

  /** The first episode, starting late, opens a run of its own. */
  lemma FirstStepOpens(a: Diagnosis)
    requires 3 <= Ord(a.start)
    ensures Step(Initial, a) == Success(MergeState([a], a.start, a.end, Some(a)))
  {
    assert Opens(Initial, a) by {
      assert Ord(Origin) == 1;
    }
    StepOpens(Initial, a);
    assert Initial.result + [a] == [a];
  }

  /** The steps over three episodes of one practitioner, the second touching the first and a gap before the third. */
  lemma TouchingThenGapSteps(a: Diagnosis, b: Diagnosis, c: Diagnosis)
    requires a.practitioner == b.practitioner == c.practitioner
    requires 3 <= Ord(a.start) <= Ord(b.start)
    requires Ord(b.start) - 1 <= Ord(a.end) < Ord(b.end) < Ord(c.start) - 1
    ensures var ab := Diagnosis(b.disease, a.start, b.end, b.practitioner);
            Step(MergeState([a], a.start, a.end, Some(a)), b) == Success(MergeState([ab], a.start, b.end, Some(b)))
            && Step(MergeState([ab], a.start, b.end, Some(b)), c) == Success(MergeState([ab, c], c.start, c.end, Some(c)))
  {
    var st1 := MergeState([a], a.start, a.end, Some(a));
    var ab := Diagnosis(b.disease, a.start, b.end, b.practitioner);
    var st2 := MergeState([ab], a.start, b.end, Some(b));
    assert !Opens(st1, b) && Ord(b.start) != 1;
    StepMerges(st1, b);
    assert Later(a.end, b.end) == b.end;
    assert st1.result[..0] + [ab] == [ab];
    assert Opens(st2, c);
    StepOpens(st2, c);
    assert [ab] + [c] == [ab, c];
  }

  /**
   * Three sorted episodes of one practitioner: the second touches the first,
   * so they form one run, and the third starts after a whole day's gap.
   */
  lemma TouchingThenGap(a: Diagnosis, b: Diagnosis, c: Diagnosis)
    requires a.practitioner == b.practitioner == c.practitioner
    requires 3 <= Ord(a.start) <= Ord(b.start) <= Ord(c.start)
    requires Ord(b.start) - 1 <= Ord(a.end) < Ord(b.end) < Ord(c.start) - 1
    ensures Merged([a, b, c]) == Success([Diagnosis(b.disease, a.start, b.end, b.practitioner), c])
  {
    var ab := Diagnosis(b.disease, a.start, b.end, b.practitioner);
    var st3 := MergeState([ab, c], c.start, c.end, Some(c));
    FirstStepOpens(a);
    TouchingThenGapSteps(a, b, c);
    FoldOfThree([a, b, c], MergeState([a], a.start, a.end, Some(a)), MergeState([ab], a.start, b.end, Some(b)), st3);
    SortedThree(a, b, c);
    MergedOfSorted([a, b, c], st3);
  }

  /** Episodes of one practitioner that touch merge; a gap of a whole day keeps them apart. */
  lemma AdjacentEpisodesMerge()
    ensures var te := Disease("TE1", "000", None);
            var a := Diagnosis(te, CalendarDate(2010, 1, 1), CalendarDate(2010, 3, 1), Some("A"));
            var b := Diagnosis(te, CalendarDate(2010, 3, 2), CalendarDate(2010, 5, 1), Some("A"));
            var c := Diagnosis(te, CalendarDate(2010, 5, 3), CalendarDate(2010, 7, 1), Some("A"));
            Merged([a, b, c]) == Success([Diagnosis(te, a.start, b.end, Some("A")), c])
  {
    var te := Disease("TE1", "000", None);
    var a := Diagnosis(te, CalendarDate(2010, 1, 1), CalendarDate(2010, 3, 1), Some("A"));
    var b := Diagnosis(te, CalendarDate(2010, 3, 2), CalendarDate(2010, 5, 1), Some("A"));
    var c := Diagnosis(te, CalendarDate(2010, 5, 3), CalendarDate(2010, 7, 1), Some("A"));
    assert Ord(a.start) == 733773 && Ord(a.end) == 733832;
    assert Ord(b.start) == 733833 && Ord(b.end) == 733893;
    assert Ord(c.start) == 733895;
    TouchingThenGap(a, b, c);
  }

  /** Each episode whose practitioner differs from the previous one's opens a run of its own, overlap or not. */
  lemma AlternatingPractitioners(a: Diagnosis, d: Diagnosis, b: Diagnosis)
    requires a.practitioner != d.practitioner && d.practitioner != b.practitioner
    requires 3 <= Ord(a.start) <= Ord(d.start) <= Ord(b.start)
    ensures Merged([a, d, b]) == Success([a, d, b])
  {
    var st1 := MergeState([a], a.start, a.end, Some(a));
    var st2 := MergeState([a, d], d.start, d.end, Some(d));
    var st3 := MergeState([a, d, b], b.start, b.end, Some(b));
    FirstStepOpens(a);
    StepOpens(st1, d);
    assert [a] + [d] == [a, d];
    StepOpens(st2, b);
    assert [a, d] + [b] == [a, d, b];
    FoldOfThree([a, d, b], st1, st2, st3);
    SortedThree(a, d, b);
    MergedOfSorted([a, d, b], st3);
  }

  /**
   * The practitioner is compared with the previous episode, not with the
   * run: an episode of another practitioner in between splits runs that
   * would otherwise merge.
   */
  lemma InterleavedPractitionerSplits()
    ensures var te := Disease("TE1", "000", None);
            var a := Diagnosis(te, CalendarDate(2010, 1, 1), CalendarDate(2010, 3, 1), Some("A"));
            var d := Diagnosis(te, CalendarDate(2010, 2, 1), CalendarDate(2010, 2, 10), Some("B"));
            var b := Diagnosis(te, CalendarDate(2010, 2, 20), CalendarDate(2010, 5, 1), Some("A"));
            Merged([a, d, b]) == Success([a, d, b])
  {
    var te := Disease("TE1", "000", None);
    var a := Diagnosis(te, CalendarDate(2010, 1, 1), CalendarDate(2010, 3, 1), Some("A"));
    var d := Diagnosis(te, CalendarDate(2010, 2, 1), CalendarDate(2010, 2, 10), Some("B"));
    var b := Diagnosis(te, CalendarDate(2010, 2, 20), CalendarDate(2010, 5, 1), Some("A"));
    assert Ord(a.start) == 733773 && Ord(d.start) == 733804 && Ord(b.start) == 733823;
    AlternatingPractitioners(a, d, b);
  }
}
