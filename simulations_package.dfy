/**
 * The newer simulation of simulations/simulations.py: a learn set of equally
 * many stroke-positive and stroke-negative patient numbers, the generator
 * that flags every patient outside it as test, the CHA2DS2-VASc and
 * per-disease feature rows, and the learn and test lists built from them.
 */
module PackageSimulations {
  import opened Wrappers
  import opened Dates
  import opened Diseases
  import opened Timeline
  import opened Patients
  import opened DiseaseGroups
  import opened LearningTest
  import Sim = Simulations

  /** The five CHA2DS2-VASc feature names, then the gender and age names. */
  const ChadsVascLabels: seq<string> := ["C", "H", "D", "S", "V", "Gender", "Age"]

  /**
   * `get_chads_vasc_feature(patient, sim_date)`: the chronic flags of the
   * C, H, D, S and V groups, the female flag and the age.
   */
  function ChadsVascFeature(p: Patient, t: Date): (x: seq<int>)
    ensures |x| == |ChadsVascLabels|
  {
    var q := p.queries;
    [Flag(q.hasDiseaseGroup(ChadsVascC, t)), Flag(q.hasDiseaseGroup(ChadsVascH, t)), Flag(q.hasDiseaseGroup(ChadsVascD, t)),
     Flag(q.hasDiseaseGroup(ChadsVascS, t)), Flag(q.hasDiseaseGroup(ChadsVascV, t)),
     Flag(IsFemale(p.sex)), CalculateAge(p.birthDate, t)]
  }

  /** The group test of the patient answers as its own diagnosis lists do, for the five score groups. */
  predicate GroupsAgree(p: Patient, t: Date)
    reads p
  {
    var q := p.queries;
    q.hasDiseaseGroup(ChadsVascC, t) == GroupPresent(p.diagnoses, ChadsVascC, t)
    && q.hasDiseaseGroup(ChadsVascH, t) == GroupPresent(p.diagnoses, ChadsVascH, t)
    && q.hasDiseaseGroup(ChadsVascD, t) == GroupPresent(p.diagnoses, ChadsVascD, t)
    && q.hasDiseaseGroup(ChadsVascS, t) == GroupPresent(p.diagnoses, ChadsVascS, t)
    && q.hasDiseaseGroup(ChadsVascV, t) == GroupPresent(p.diagnoses, ChadsVascV, t)
  }

  /**
   * The seven features carry the whole score: weighing stroke twice, adding
   * the other flags, the female flag and the age points gives
   * `calculate_chads_vasc`, when the group test agrees with the lists.
   */
  lemma ChadsVascFeatureScore(p: Patient, t: Date)
    requires GroupsAgree(p, t)
    ensures var x := ChadsVascFeature(p, t);
            x[0] + x[1] + x[2] + 2 * x[3] + x[4] + x[5] + AgePoints(x[6]) == p.Score(t)
  {
  }

  /** The value `get_feature_slice` gives an absent disease in days-since mode. */
  const Absent: int := 10000

  /**
   * `get_feature_slice(diseases, patient, sim_date, days_since)`: one value
   * per disease, then the female flag and the age.
   */
  function FeatureSlice(diseases: seq<Disease>, p: Patient, t: Date, daysSince: bool): (x: seq<int>)
    reads p
    ensures |x| == |diseases| + 2
  {
    var n := |diseases|;
    var lists := p.diagnoses;
    var values := if daysSince then
                    seq(n, i requires 0 <= i < n =>
                          if HasDisease(lists, diseases[i].Id(), t, true) then p.queries.daysSinceDiagnosis(diseases[i], t) else Absent)
                  else
                    seq(n, i requires 0 <= i < n => Flag(HasDisease(lists, diseases[i].Id(), t, true)));
    values + [Flag(IsFemale(p.sex)), CalculateAge(p.birthDate, t)]
  }

  /**
   * In days-since mode a present disease (chronic diagnoses count after
   * their end) gives the days since its diagnosis and an absent one 10000;
   * in flag mode presence gives 1 and absence 0. The female flag and the age
   * close the row.
   */
  lemma FeatureSliceLayout(diseases: seq<Disease>, p: Patient, t: Date, daysSince: bool)
    ensures var x := FeatureSlice(diseases, p, t, daysSince);
            (forall i :: 0 <= i < |diseases| ==>
               x[i] == if !daysSince then Flag(HasDisease(p.diagnoses, diseases[i].Id(), t, true))
                       else if HasDisease(p.diagnoses, diseases[i].Id(), t, true) then p.queries.daysSinceDiagnosis(diseases[i], t)
                       else Absent)
            && x[|diseases|] == Flag(IsFemale(p.sex)) && x[|diseases| + 1] == CalculateAge(p.birthDate, t)
  {
  }

  /**
   * In flag mode the row is the older feature vector without its days
   * block: the presence flags, the female flag and the age.
   */
  lemma FlagSliceIsOlderVector(diseases: seq<Disease>, p: Patient, t: Date)
    ensures var v := Sim.FeatureVector(diseases, p, t);
            FeatureSlice(diseases, p, t, false) == v[..|diseases|] + v[2 * |diseases|..]
  {
    var n := |diseases|;
    var v := Sim.FeatureVector(diseases, p, t);
    var x := FeatureSlice(diseases, p, t, false);
    Sim.FeatureVectorLayout(diseases, p, t);
    FeatureSliceLayout(diseases, p, t, false);
    assert forall i :: 0 <= i < n + 2 ==> x[i] == (v[..n] + v[2 * n..])[i];
  }

  /**
   * In days-since mode each value is the older vector's days entry where its
   * flag is set, and 10000 (not 0) where it is not.
   */
  lemma DaysSliceAgainstOlderVector(diseases: seq<Disease>, p: Patient, t: Date)
    ensures var v := Sim.FeatureVector(diseases, p, t);
            var x := FeatureSlice(diseases, p, t, true);
            forall i :: 0 <= i < |diseases| ==> x[i] == if v[i] == 1 then v[|diseases| + i] else Absent
  {
    Sim.FeatureVectorLayout(diseases, p, t);
    FeatureSliceLayout(diseases, p, t, true);
  }

  /** `get_feature_labels(diseases)`: the string of each disease, then "Gender" and "Age". */
  function FeatureLabels(diseases: seq<Disease>): (labels: seq<string>)
    ensures |labels| == |diseases| + 2
    ensures forall i :: 0 <= i < |diseases| ==> labels[i] == Repr(diseases[i])
    ensures labels[|diseases|] == "Gender" && labels[|diseases| + 1] == "Age"
  {
    seq(|diseases|, i requires 0 <= i < |diseases| => Repr(diseases[i])) + ["Gender", "Age"]
  }

  /**
   * The labels are in line with the slice, in both modes: one label per
   * value, "Gender" over the female flag and "Age" over the age.
   */
  lemma LabelsMatchSlice(diseases: seq<Disease>, p: Patient, t: Date, daysSince: bool)
    ensures var x := FeatureSlice(diseases, p, t, daysSince);
            var labels := FeatureLabels(diseases);
            |labels| == |x|
            && labels[|diseases|] == "Gender" && x[|diseases|] == Flag(IsFemale(p.sex))
            && labels[|diseases| + 1] == "Age" && x[|diseases| + 1] == CalculateAge(p.birthDate, t)
  {
    FeatureSliceLayout(diseases, p, t, daysSince);
  }

  /** The date the stroke history is judged at: `datetime.date(2050, 1, 1)`. */
  const Horizon: Date := CalendarDate(2050, 1, 1)

  /** A patient with a chronic stroke diagnosis by the horizon. */
  predicate StrokePositive(p: Patient)
  {
    p.queries.hasDiseaseGroup(StrokeDiseases, Horizon)
  }

  /** The numbers of the stroke-positive patients, in dict order. */
  function Positives(patients: Sim.Cohort): seq<int>
  {
    if patients == [] then []
    else
      var (nr, p) := patients[|patients| - 1];
      Positives(patients[..|patients| - 1]) + (if StrokePositive(p) then [nr] else [])
  }

  /** The numbers of the other patients, in dict order. */
  function Negatives(patients: Sim.Cohort): seq<int>
  {
    if patients == [] then []
    else
      var (nr, p) := patients[|patients| - 1];
      Negatives(patients[..|patients| - 1]) + (if StrokePositive(p) then [] else [nr])
  }

  /**
   * Each patient lands in exactly one list: a number is positive exactly
   * when some stroke-positive patient has it, negative exactly when some
   * other patient has it, and the two lists together are as long as the
   * cohort.
   */
  lemma {:induction false} PartitionMembers(patients: Sim.Cohort)
    ensures forall k :: k in Positives(patients) <==> exists i :: 0 <= i < |patients| && patients[i].0 == k && StrokePositive(patients[i].1)
    ensures forall k :: k in Negatives(patients) <==> exists i :: 0 <= i < |patients| && patients[i].0 == k && !StrokePositive(patients[i].1)
    ensures |Positives(patients)| + |Negatives(patients)| == |patients|
  {
    if patients != [] {
      var n := |patients| - 1;
      PartitionMembers(patients[..n]);
      assert forall i :: 0 <= i < n ==> patients[..n][i] == patients[i];
    }
  }

  /** Appending a number found nowhere in a sequence without repeats keeps it without repeats. */
  lemma UniqueSnoc(s: seq<int>, x: int)
    requires Sim.Unique(s) && x !in s
    ensures Sim.Unique(s + [x])
  {
  }

  /** Two sequences without repeats and without common numbers concatenate without repeats. */
  lemma UniqueConcat(a: seq<int>, b: seq<int>)
    requires Sim.Unique(a) && Sim.Unique(b) && forall k :: k in a ==> k !in b
    ensures Sim.Unique(a + b)
  {
    forall i, j | 0 <= i < j < |a + b|
      ensures (a + b)[i] != (a + b)[j]
    {
      if i < |a| && j >= |a| {
        assert (a + b)[i] in a && (a + b)[j] == b[j - |a|];
      }
    }
  }

  /** With distinct patient numbers, neither list repeats a number and no number is in both. */
  lemma {:induction false} PartitionUnique(patients: Sim.Cohort)
    requires Sim.Unique(Sim.Keys(patients))
    ensures Sim.Unique(Positives(patients)) && Sim.Unique(Negatives(patients))
    ensures forall k :: k in Positives(patients) ==> k !in Negatives(patients)
  {
    if patients != [] {
      var n := |patients| - 1;
      var init := patients[..n];
      assert Sim.Unique(Sim.Keys(init)) by {
        assert forall i :: 0 <= i < n ==> Sim.Keys(init)[i] == Sim.Keys(patients)[i];
      }
      PartitionUnique(init);
      PartitionMembers(init);
      var (nr, p) := patients[n];
      assert Sim.Keys(patients)[n] == nr;
      assert forall i :: 0 <= i < n ==> init[i].0 != nr by {
        assert forall i :: 0 <= i < n ==> init[i].0 == Sim.Keys(patients)[i];
      }
      if StrokePositive(p) {
        UniqueSnoc(Positives(init), nr);
      } else {
        UniqueSnoc(Negatives(init), nr);
      }
    }
  }

  /** Python's `int(a / b)` for a positive `b`: the quotient truncated toward zero. */
  function TruncDiv(a: int, b: int): (q: int)
    requires 0 < b
    ensures 0 <= a ==> 0 <= q && q * b <= a < q * b + b
    ensures a < 0 ==> q <= 0 && q * b - b < a <= q * b
  {
    if 0 <= a then a / b else -((-a) / b)
  }

  /** `half_learn_size`: the number of positives times the rate, truncated. */
  function HalfLearnSize(patients: Sim.Cohort, rate: Sim.Rate): int
  {
    TruncDiv(|Positives(patients)| * rate.num, rate.den)
  }

  /**
   * `get_patient_subset(patients, stroke_patient_rate)`: the first
   * `half_learn_size` shuffled positives followed by as many shuffled
   * negatives. The shuffles are the inputs `shuffledPos` and `shuffledNeg`,
   * rearrangements of the two lists.
   */
  function PatientSubset(patients: Sim.Cohort, rate: Sim.Rate, shuffledPos: seq<int>, shuffledNeg: seq<int>): (learnSet: seq<int>)
    requires multiset(shuffledPos) == multiset(Positives(patients)) && multiset(shuffledNeg) == multiset(Negatives(patients))
    ensures |learnSet| == Sim.PrefixLength(HalfLearnSize(patients, rate), |Positives(patients)|)
                          + Sim.PrefixLength(HalfLearnSize(patients, rate), |Negatives(patients)|)
  {
    var h := HalfLearnSize(patients, rate);
    Sim.PrefixOfShuffle(Positives(patients), shuffledPos, Sim.PrefixLength(h, |Positives(patients)|));
    Sim.PrefixOfShuffle(Negatives(patients), shuffledNeg, Sim.PrefixLength(h, |Negatives(patients)|));
    shuffledPos[..Sim.PrefixLength(h, |Positives(patients)|)] + shuffledNeg[..Sim.PrefixLength(h, |Negatives(patients)|)]
  }

  /**
   * For a rate of at least 0 the learn set starts with at most
   * `half_learn_size` positives (all of them when there are fewer) and ends
   * with at most as many negatives.
   */
  lemma PatientSubsetKinds(patients: Sim.Cohort, rate: Sim.Rate, shuffledPos: seq<int>, shuffledNeg: seq<int>)
    requires multiset(shuffledPos) == multiset(Positives(patients)) && multiset(shuffledNeg) == multiset(Negatives(patients))
    requires 0 <= rate.num
    ensures var learnSet := PatientSubset(patients, rate, shuffledPos, shuffledNeg);
            var h := HalfLearnSize(patients, rate);
            var a := if h < |Positives(patients)| then h else |Positives(patients)|;
            0 <= h
            && |learnSet| - a == (if h < |Negatives(patients)| then h else |Negatives(patients)|)
            && (forall i :: 0 <= i < a ==> learnSet[i] in Positives(patients))
            && (forall i :: a <= i < |learnSet| ==> learnSet[i] in Negatives(patients))
  {
    var pos, neg := Positives(patients), Negatives(patients);
    if |pos| > 0 {
      Sim.MulAtLeast(|pos|, rate.num);
    }
    assert 0 <= |pos| * rate.num;
    var h := HalfLearnSize(patients, rate);
    var a, b := Sim.PrefixLength(h, |pos|), Sim.PrefixLength(h, |neg|);
    PrefixesOfShuffles(pos, neg, shuffledPos, shuffledNeg, a, b);
    assert PatientSubset(patients, rate, shuffledPos, shuffledNeg) == shuffledPos[..a] + shuffledNeg[..b];
  }

  /** The first `a` of a rearrangement of `pos` followed by the first `b` of one of `neg`: members of `pos`, then of `neg`. */
  lemma PrefixesOfShuffles(pos: seq<int>, neg: seq<int>, shuffledPos: seq<int>, shuffledNeg: seq<int>, a: nat, b: nat)
    requires multiset(shuffledPos) == multiset(pos) && multiset(shuffledNeg) == multiset(neg) && a <= |pos| && b <= |neg|
    ensures a <= |shuffledPos| && b <= |shuffledNeg|
    ensures var l := shuffledPos[..a] + shuffledNeg[..b];
            |l| == a + b && (forall i :: 0 <= i < a ==> l[i] in pos) && (forall i :: a <= i < |l| ==> l[i] in neg)
  {
    Sim.PrefixOfShuffle(pos, shuffledPos, a);
    Sim.PrefixOfShuffle(neg, shuffledNeg, b);
    var l := shuffledPos[..a] + shuffledNeg[..b];
    forall i | 0 <= i < a
      ensures l[i] in pos
    {
      assert l[i] == shuffledPos[..a][i];
    }
    forall i | a <= i < |l|
      ensures l[i] in neg
    {
      assert l[i] == shuffledNeg[..b][i - a];
    }
  }

  /** Every member of the learn set is a patient number, and with distinct patient numbers none occurs twice. */
  lemma PatientSubsetKeys(patients: Sim.Cohort, rate: Sim.Rate, shuffledPos: seq<int>, shuffledNeg: seq<int>)
    requires multiset(shuffledPos) == multiset(Positives(patients)) && multiset(shuffledNeg) == multiset(Negatives(patients))
    ensures var learnSet := PatientSubset(patients, rate, shuffledPos, shuffledNeg);
            (forall k :: k in learnSet ==> k in Sim.Keys(patients))
            && (Sim.Unique(Sim.Keys(patients)) ==> Sim.Unique(learnSet))
  {
    var pos, neg := Positives(patients), Negatives(patients);
    var h := HalfLearnSize(patients, rate);
    var a, b := Sim.PrefixLength(h, |pos|), Sim.PrefixLength(h, |neg|);
    var learnSet := PatientSubset(patients, rate, shuffledPos, shuffledNeg);
    Sim.PrefixOfShuffle(pos, shuffledPos, a);
    Sim.PrefixOfShuffle(neg, shuffledNeg, b);
    assert learnSet == shuffledPos[..a] + shuffledNeg[..b];
    PartitionMembers(patients);
    forall k | k in learnSet
      ensures k in Sim.Keys(patients)
    {
      assert k in pos || k in neg;
      var j :| 0 <= j < |patients| && patients[j].0 == k;
      assert Sim.Keys(patients)[j] == k;
    }
    if Sim.Unique(Sim.Keys(patients)) {
      PartitionUnique(patients);
      UniqueConcat(shuffledPos[..a], shuffledNeg[..b]);
    }
  }

  /**
   * `get_patient_subset`: the partition loop over the patients in dict
   * order, then `half_learn_size` and the two shuffled prefixes.
   */
  method GetPatientSubset(patients: Sim.Cohort, rate: Sim.Rate, shuffledPos: seq<int>, shuffledNeg: seq<int>) returns (learnSet: seq<int>)
    requires multiset(shuffledPos) == multiset(Positives(patients)) && multiset(shuffledNeg) == multiset(Negatives(patients))
    ensures learnSet == PatientSubset(patients, rate, shuffledPos, shuffledNeg)
  {
    var pos, neg := [], [];
    for i := 0 to |patients|
      invariant pos == Positives(patients[..i]) && neg == Negatives(patients[..i])
    {
      assert patients[..i + 1][..i] == patients[..i];
      var (nr, p) := patients[i];
      if p.queries.hasDiseaseGroup(StrokeDiseases, Horizon) {
        pos := pos + [nr];
      } else {
        neg := neg + [nr];
      }
    }
    assert patients[..|patients|] == patients;
    var half := TruncDiv(|pos| * rate.num, rate.den);
    assert |shuffledPos| == |multiset(shuffledPos)| == |pos| && |shuffledNeg| == |multiset(shuffledNeg)| == |neg|;
    learnSet := shuffledPos[..Sim.PrefixLength(half, |pos|)] + shuffledNeg[..Sim.PrefixLength(half, |neg|)];
  }

  /** The generator's setup: the learn set of `get_patient_subset(patients)` at rate one half, every other patient in the test set, no B01 test. */
  function LearnSetup(patients: Sim.Cohort, shuffledPos: seq<int>, shuffledNeg: seq<int>): (setup: Sim.Setup)
    requires multiset(shuffledPos) == multiset(Positives(patients)) && multiset(shuffledNeg) == multiset(Negatives(patients))
    ensures !setup.checkB01
    ensures forall nr :: Sim.InTestSet(setup, nr) <==> nr !in PatientSubset(patients, Sim.Fraction(1, 2), shuffledPos, shuffledNeg)
  {
    Sim.Setup(PatientSubset(patients, Sim.Fraction(1, 2), shuffledPos, shuffledNeg), false, false)
  }

  /**
   * `patient_month_generator(patients, start, end, step, test_rate)`: the
   * learn set drawn once, then every month from `start` the admitted
   * patients in dict order, flagged as test when outside the learn set.
   * `test_rate` is accepted and not used.
   */
  method PatientMonthGenerator(patients: Sim.Cohort, start: Date, end: Date, step: nat, testRate: Sim.Rate,
                               shuffledPos: seq<int>, shuffledNeg: seq<int>) returns (r: Option<seq<Sim.Emission>>)
    requires 1 <= step
    requires multiset(shuffledPos) == multiset(Positives(patients)) && multiset(shuffledNeg) == multiset(Negatives(patients))
    ensures r == Sim.Emissions(patients, LearnSetup(patients, shuffledPos, shuffledNeg), Sim.SimDates(start, end, step))
  {
    var learnSet := GetPatientSubset(patients, Sim.Fraction(1, 2), shuffledPos, shuffledNeg);
    r := Sim.Generate(patients, Sim.Setup(learnSet, false, false), start, end, step);
  }

  /** The feature row of one value: the CHA2DS2-VASc features or the feature slice. */
  function Row(diseases: seq<Disease>, e: Sim.Emission, daysSince: bool, chadsVascFeatures: bool): seq<int>
    reads e.patient
  {
    if chadsVascFeatures then ChadsVascFeature(e.patient, e.date) else FeatureSlice(diseases, e.patient, e.date, daysSince)
  }

  /** The feature rows of the values, in order. */
  function Rows(diseases: seq<Disease>, es: seq<Sim.Emission>, daysSince: bool, chadsVascFeatures: bool): (xs: seq<seq<int>>)
    reads Sim.PatientsOf(es)
    ensures |xs| == |es|
  {
    if es == [] then []
    else
      var n := |es| - 1;
      Rows(diseases, es[..n], daysSince, chadsVascFeatures) + [Row(diseases, es[n], daysSince, chadsVascFeatures)]
  }

  /** The patient numbers of the values, in order (`learn_groups`). */
  function Numbers(es: seq<Sim.Emission>): (ns: seq<int>)
    ensures |ns| == |es|
  {
    if es == [] then [] else Numbers(es[..|es| - 1]) + [es[|es| - 1].patient.number]
  }

  /** One more value adds its row, its label and its number. */
  lemma RowsSnoc(diseases: seq<Disease>, es: seq<Sim.Emission>, e: Sim.Emission, daysSince: bool, chadsVascFeatures: bool)
    ensures Rows(diseases, es + [e], daysSince, chadsVascFeatures) == Rows(diseases, es, daysSince, chadsVascFeatures) + [Row(diseases, e, daysSince, chadsVascFeatures)]
    ensures Sim.Targets(es + [e]) == Sim.Targets(es) + [Sim.StrokeLabel(e.patient, e.date)]
    ensures Numbers(es + [e]) == Numbers(es) + [e.patient.number]
  {
    assert (es + [e])[..|es|] == es;
  }

  /** The six lists `simulate_predictor` returns. */
  datatype Simulated = Simulated(xLearn: seq<seq<int>>, yLearn: seq<bool>, xTest: seq<seq<int>>, yTest: seq<bool>,
                                 labels: seq<string>, learnGroups: seq<int>)

  /** The lists after the values `es`: the learn values' rows, labels and numbers, and the test values' rows and labels. */
  ghost predicate Split(s: Simulated, diseases: seq<Disease>, es: seq<Sim.Emission>, daysSince: bool, chadsVascFeatures: bool)
    reads Sim.PatientsOf(Sim.Part(es, false)), Sim.PatientsOf(Sim.Part(es, true))
  {
    var learn, test := Sim.Part(es, false), Sim.Part(es, true);
    s.xLearn == Rows(diseases, learn, daysSince, chadsVascFeatures) && s.yLearn == Sim.Targets(learn) && s.learnGroups == Numbers(learn)
    && s.xTest == Rows(diseases, test, daysSince, chadsVascFeatures) && s.yTest == Sim.Targets(test)
  }

  /**
   * Every value is accounted for once: the learn rows, labels and numbers
   * are equally many, so are the test rows and labels, and the two sets
   * together hold all values.
   */
  lemma SplitSizes(s: Simulated, diseases: seq<Disease>, es: seq<Sim.Emission>, daysSince: bool, chadsVascFeatures: bool)
    requires Split(s, diseases, es, daysSince, chadsVascFeatures)
    ensures |s.xLearn| == |s.yLearn| == |s.learnGroups| && |s.xTest| == |s.yTest|
    ensures |s.xLearn| + |s.xTest| == |es|
  {
    Sim.PartSizes(es);
  }

  /** One pass of the loop of `simulate_predictor`: the value's row and label go to the test lists or to the learn lists with its number. */
  method SplitStep(diseases: seq<Disease>, es: seq<Sim.Emission>, i: nat, daysSince: bool, chadsVascFeatures: bool, s: Simulated)
    returns (s': Simulated)
    requires i < |es| && Split(s, diseases, es[..i], daysSince, chadsVascFeatures)
    ensures Split(s', diseases, es[..i + 1], daysSince, chadsVascFeatures) && s'.labels == s.labels
  {
    var e := es[i];
    var p, t := e.patient, e.date;
    Sim.PartSnoc(es, i, true);
    Sim.PartSnoc(es, i, false);
    var x := if chadsVascFeatures then ChadsVascFeature(p, t) else FeatureSlice(diseases, p, t, daysSince);
    var y := Sim.StrokeLabel(p, t);
    if e.inTestSet {
      RowsSnoc(diseases, Sim.Part(es[..i], true), e, daysSince, chadsVascFeatures);
      assert Sim.Part(es[..i], false) + [] == Sim.Part(es[..i], false);
      s' := s.(xTest := s.xTest + [x], yTest := s.yTest + [y]);
    } else {
      RowsSnoc(diseases, Sim.Part(es[..i], false), e, daysSince, chadsVascFeatures);
      assert Sim.Part(es[..i], true) + [] == Sim.Part(es[..i], true);
      s' := s.(xLearn := s.xLearn + [x], yLearn := s.yLearn + [y], learnGroups := s.learnGroups + [p.number]);
    }
  }

  /**
   * `simulate_predictor(patients, diseases, start, end, day_since,
   * chads_vasc_features)` without its printing and timing: the labels, then
   * per value of the generator (monthly steps) its row and label in the test
   * lists when flagged, else in the learn lists with the patient's number.
   */
  method SimulatePredictor(patients: Sim.Cohort, diseases: seq<Disease>, start: Date, end: Date, daysSince: bool, chadsVascFeatures: bool,
                           shuffledPos: seq<int>, shuffledNeg: seq<int>) returns (r: Option<Simulated>)
    requires multiset(shuffledPos) == multiset(Positives(patients)) && multiset(shuffledNeg) == multiset(Negatives(patients))
    ensures var es := Sim.Emissions(patients, LearnSetup(patients, shuffledPos, shuffledNeg), Sim.SimDates(start, end, 1));
            (r.Some? <==> es.Some?)
            && (r.Some? ==> Split(r.value, diseases, es.value, daysSince, chadsVascFeatures)
                            && r.value.labels == (if chadsVascFeatures then ChadsVascLabels else FeatureLabels(diseases)))
  {
    var labels := if chadsVascFeatures then ChadsVascLabels else FeatureLabels(diseases);
    var g := PatientMonthGenerator(patients, start, end, 1, Sim.Fraction(1, 5), shuffledPos, shuffledNeg);
    if g.None? {
      return None;
    }
    var es := g.value;
    var s := Simulated([], [], [], [], labels, []);
    for i := 0 to |es|
      invariant Split(s, diseases, es[..i], daysSince, chadsVascFeatures) && s.labels == labels
    {
      s := SplitStep(diseases, es, i, daysSince, chadsVascFeatures, s);
    }
    assert es[..|es|] == es;
    return Some(s);
  }

  /**
   * `simulate_chads_vasc(patients, start, end, only_test_set)`: the same
   * threshold loop as the older copy over this generator's values.
   */
  method SimulateChadsVasc(patients: Sim.Cohort, start: Date, end: Date, onlyTestSet: bool, shuffledPos: seq<int>, shuffledNeg: seq<int>)
    returns (r: Option<(seq<int>, seq<int>)>)
    requires multiset(shuffledPos) == multiset(Positives(patients)) && multiset(shuffledNeg) == multiset(Negatives(patients))
    ensures var es := Sim.Emissions(patients, LearnSetup(patients, shuffledPos, shuffledNeg), Sim.SimDates(start, end, 1));
            (r.Some? <==> es.Some?)
            && (r.Some? ==> r.value.0 == Sim.Decisions(Sim.Chosen(es.value, onlyTestSet))
                            && r.value.1 == Sim.StrokeFlags(Sim.Chosen(es.value, onlyTestSet))
                            && |r.value.0| == |r.value.1|)
  {
    var g := PatientMonthGenerator(patients, start, end, 1, Sim.Fraction(1, 5), shuffledPos, shuffledNeg);
    if g.None? {
      return None;
    }
    var x, y := Sim.ThresholdRows(g.value, onlyTestSet);
    return Some((x, y));
  }
}
