/**
 * The newer copy of the practitioner analysis (practioner_analysis/
 * practitioner.py). It walks each patient's diagnoses through
 * `iter_diagnoses` instead of the values of the diagnosis dict, builds the
 * bins after the tuples, and otherwise bins exactly as the older copy.
 */
module PractitionerAnalysis {
  import opened Wrappers
  import opened Dates
  import opened Diseases
  import opened Diagnoses
  import opened StableSort
  import opened Patients
  import opened Practitioner

  /** The practitioners `get_practitioners(patients, spec)` returns: those of every patient's `iter_diagnoses`. */
  function IterPractitioners(patients: seq<Patient>, spec: Option<string>): set<string>
    reads patients
  {
    if patients == [] then {}
    else
      var p := patients[|patients| - 1];
      IterPractitioners(patients[..|patients| - 1], spec) + PractitionersIn(p.queries.iterDiagnoses, spec)
  }

  /** The diagnoses a patient contributes: its `iter_diagnoses`, or only the given disease's list. */
  function IterSelected(p: Patient, disease: Option<DiseaseId>): seq<Diagnosis>
    reads p
  {
    if disease.Some? then (if disease.value in p.diagnoses then p.diagnoses[disease.value] else [])
    else p.queries.iterDiagnoses
  }

  /** The list `get_diagnosis_tuples(patients, disease)` returns, patient by patient. */
  function IterTuples(patients: seq<Patient>, disease: Option<DiseaseId>): seq<(Patient, Diagnosis)>
    reads patients
  {
    if patients == [] then []
    else
      var p := patients[|patients| - 1];
      IterTuples(patients[..|patients| - 1], disease) + Paired(p, IterSelected(p, disease))
  }

  /** Each patient's `iter_diagnoses` walks the disease lists in the dict's order. */
  predicate IteratesInDictOrder(patients: seq<Patient>)
    reads patients
  {
    forall i :: 0 <= i < |patients| ==> patients[i].queries.iterDiagnoses == EpisodesOf(patients[i].diagnoses, patients[i].diseaseOrder)
  }

  /** When `iter_diagnoses` walks the lists in dict order, both copies collect the same practitioners. */
  lemma {:induction false} IterPractitionersAgree(patients: seq<Patient>, spec: Option<string>)
    requires IteratesInDictOrder(patients)
    ensures IterPractitioners(patients, spec) == CohortPractitioners(patients, spec)
  {
    if patients != [] {
      var n := |patients| - 1;
      assert IteratesInDictOrder(patients[..n]) by {
        forall i | 0 <= i < n
          ensures patients[..n][i] == patients[i]
        {
        }
      }
      IterPractitionersAgree(patients[..n], spec);
    }
  }

  /** When `iter_diagnoses` walks the lists in dict order, both copies build the same tuples. */
  lemma {:induction false} IterTuplesAgree(patients: seq<Patient>, disease: Option<DiseaseId>)
    requires IteratesInDictOrder(patients)
    ensures IterTuples(patients, disease) == TuplesOf(patients, disease)
  {
    if patients != [] {
      var n := |patients| - 1;
      assert IteratesInDictOrder(patients[..n]) by {
        forall i | 0 <= i < n
          ensures patients[..n][i] == patients[i]
        {
        }
      }
      IterTuplesAgree(patients[..n], disease);
    }
  }

  /**
   * `get_practitioners`: every patient in the dict's order, every diagnosis
   * of `iter_diagnoses`; a practitioner is added when set and non-empty and
   * its disease's specialism is `spec` or `spec` is None.
   */
  method GetPractitioners(patients: seq<Patient>, spec: Option<string>) returns (practitioners: set<string>)
    ensures practitioners == IterPractitioners(patients, spec)
  {
    practitioners := {};
    for i := 0 to |patients|
      invariant practitioners == IterPractitioners(patients[..i], spec)
    {
      assert patients[..i + 1][..i] == patients[..i];
      practitioners := CollectFromList(patients[i].queries.iterDiagnoses, spec, practitioners);
    }
    assert patients[..|patients|] == patients;
  }

  /**
   * `get_diagnosis_tuples`: patient by patient, the pairs of the given
   * disease's list (none when the patient lacks it), or of every diagnosis
   * of `iter_diagnoses` when no disease is given.
   */
  method GetDiagnosisTuples(patients: seq<Patient>, disease: Option<DiseaseId>) returns (tuples: seq<(Patient, Diagnosis)>)
    ensures tuples == IterTuples(patients, disease)
  {
    tuples := [];
    for i := 0 to |patients|
      invariant tuples == IterTuples(patients[..i], disease)
    {
      var p := patients[i];
      assert patients[..i + 1][..i] == patients[..i];
      if disease.Some? {
        if disease.value !in p.diagnoses {
          assert Paired(p, []) == [];
          assert tuples + [] == tuples;
          continue;
        }
        tuples := AppendPairs(p, p.diagnoses[disease.value], tuples);
      } else {
        tuples := AppendPairs(p, p.queries.iterDiagnoses, tuples);
      }
    }
    assert patients[..|patients|] == patients;
  }

  /**
   * `analyze_practitioners` (with `plot=False`): the cohort's practitioners
   * for `spec`, the tuples of the disease (`spec`, `diag`) sorted stably by
   * start date, the bins from `start` to `end`, then the same binning loop as
   * the older copy, with the same failure case and the same cells.
   */
  method AnalyzePractitioners(patients: seq<Patient>, start: Date, end: Date, binMonths: nat, medsStartWith: string,
                              spec: Option<string>, diag: Option<string>) returns (r: Result<Grid, BinError>)
    requires 1 <= binMonths
    ensures var bins := MonthBins(start, end, binMonths);
            var tuples := SortByKey(IterTuples(patients, DiseaseFilter(spec, diag)), TupleStart);
            var items := Items(tuples);
            var practitioners := IterPractitioners(patients, spec);
            var stop := StopIndex(items, practitioners, Ord(start), Ord(end));
            (r.Failure? <==> |bins| < 2 && SomeCounted(items, practitioners, Ord(start), Ord(end), stop))
            && (r.Success? ==> GridMatches(r.value, items, Observations(tuples, medsStartWith), practitioners, Ord(start), Ord(end),
                                           DayNumbers(bins), bins, stop))
  {
    var practitioners := GetPractitioners(patients, spec);
    var disease := DiseaseFilter(spec, diag);
    var tuples := GetDiagnosisTuples(patients, disease);
    tuples := SortByKey(tuples, TupleStart);
    SortByKeyProperties(IterTuples(patients, disease), TupleStart);
    var bins := GetMonthBins(start, end, binMonths);
    r := BinDiagnoses(tuples, practitioners, start, end, binMonths, bins, medsStartWith);
  }
}
