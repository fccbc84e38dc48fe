/**
 * The linking and counting helpers of main.py: attaching the read episodes
 * and medications to the patients, and counting diseases over all episodes.
 * A dictionary from patient number to a list is a sequence of pairs in the
 * dictionary's order.
 */
module MainFunctions {
  import opened Wrappers
  import opened Dates
  import opened Diseases
  import opened Diagnoses
  import opened Medications
  import opened Timeline
  import opened Patients

  /** The entries of `records` that reach patient object `p` through `patients`, concatenated in order. */
  function Routed<T>(records: seq<(int, seq<T>)>, patients: map<int, Patient>, p: Patient): seq<T>
  {
    if records == [] then []
    else
      var (nr, items) := records[|records| - 1];
      Routed(records[..|records| - 1], patients, p) + (if nr in patients && patients[nr] == p then items else [])
  }

  /** A record whose first lookup raises `KeyError`: an unknown patient with at least one entry. */
  predicate Unknown<T>(record: (int, seq<T>), known: set<int>)
  {
    record.0 !in known && record.1 != []
  }

  /** The index of the first record that raises, or the length when none does. */
  function FirstUnknown<T>(records: seq<(int, seq<T>)>, known: set<int>): (n: nat)
    ensures n <= |records|
    ensures forall i :: 0 <= i < n ==> !Unknown(records[i], known)
    ensures n < |records| ==> Unknown(records[n], known)
  {
    if records == [] then 0
    else if Unknown(records[0], known) then 0
    else
      var n := FirstUnknown(records[1..], known);
      assert forall i :: 1 <= i < n + 1 ==> records[i] == records[1..][i - 1];
      n + 1
  }

  /** A patient's episode lists after `add_diagnosis` of each of `ds` in turn. */
  function AddedLists(lists: DiagnosisLists, ds: seq<Diagnosis>): DiagnosisLists
  {
    if ds == [] then lists else WithDiagnosis(AddedLists(lists, ds[..|ds| - 1]), ds[|ds| - 1])
  }

  /** A patient's disease order after `add_diagnosis` of each of `ds` in turn. */
  function AddedOrder(order: seq<DiseaseId>, lists: DiagnosisLists, ds: seq<Diagnosis>): seq<DiseaseId>
  {
    if ds == [] then order
    else WithDiseaseOrder(AddedOrder(order, lists, ds[..|ds| - 1]), AddedLists(lists, ds[..|ds| - 1]), ds[|ds| - 1])
  }

  /** A patient's medication lists after `add_medication` of each of `ms` in turn. */
  function AddedMedications(meds: map<string, seq<Medication>>, ms: seq<Medication>): map<string, seq<Medication>>
  {
    if ms == [] then meds else WithMedication(AddedMedications(meds, ms[..|ms| - 1]), ms[|ms| - 1])
  }

  lemma RoutedSnoc<T>(records: seq<(int, seq<T>)>, i: nat, patients: map<int, Patient>, p: Patient)
    requires i < |records|
    ensures Routed(records[..i + 1], patients, p)
            == Routed(records[..i], patients, p)
               + (if records[i].0 in patients && patients[records[i].0] == p then records[i].1 else [])
  {
    assert records[..i + 1][..i] == records[..i];
  }

  lemma AddedSnoc(order: seq<DiseaseId>, lists: DiagnosisLists, ds: seq<Diagnosis>, d: Diagnosis)
    ensures AddedLists(lists, ds + [d]) == WithDiagnosis(AddedLists(lists, ds), d)
    ensures AddedOrder(order, lists, ds + [d]) == WithDiseaseOrder(AddedOrder(order, lists, ds), AddedLists(lists, ds), d)
  {
    assert (ds + [d])[..|ds|] == ds;
  }

  lemma AddedMedicationsSnoc(meds: map<string, seq<Medication>>, ms: seq<Medication>, m: Medication)
    ensures AddedMedications(meds, ms + [m]) == WithMedication(AddedMedications(meds, ms), m)
  {
    assert (ms + [m])[..|ms|] == ms;
  }

  /** Adding episodes one by one keeps each patient's disease order a listing of its diseases. */
  lemma {:induction false} AddedKeepsOrder(order: seq<DiseaseId>, lists: DiagnosisLists, ds: seq<Diagnosis>)
    requires OrderMatches(order, lists)
    ensures OrderMatches(AddedOrder(order, lists, ds), AddedLists(lists, ds))
  {
    if ds != [] {
      var init := ds[..|ds| - 1];
      AddedKeepsOrder(order, lists, init);
      AddDiagnosisKeepsOrder(AddedLists(lists, init), AddedOrder(order, lists, init), ds[|ds| - 1]);
    }
  }

  /** The list kept for `id`, empty when there is none. */
  function ListOf(lists: DiagnosisLists, id: DiseaseId): seq<Diagnosis>
  {
    if id in lists then lists[id] else []
  }

  /**
   * After adding `ds`, a disease's list is its old list followed by the
   * episodes of `ds` that carry it, in their order, and it is recorded
   * exactly when it was before or one of those episodes carries it.
   */
  lemma {:induction false} AddedListsOf(lists: DiagnosisLists, ds: seq<Diagnosis>, id: DiseaseId)
    ensures id in AddedLists(lists, ds) <==> id in lists || OfId(ds, id) != []
    ensures ListOf(AddedLists(lists, ds), id) == ListOf(lists, id) + OfId(ds, id)
  {
    if ds != [] {
      AddedListsOf(lists, ds[..|ds| - 1], id);
    }
  }

  /** Adding `xs` and then `ys` is adding `xs + ys`. */
  lemma {:induction false} AddedAppend(order: seq<DiseaseId>, lists: DiagnosisLists, xs: seq<Diagnosis>, ys: seq<Diagnosis>)
    ensures AddedLists(AddedLists(lists, xs), ys) == AddedLists(lists, xs + ys)
    ensures AddedOrder(AddedOrder(order, lists, xs), AddedLists(lists, xs), ys) == AddedOrder(order, lists, xs + ys)
  {
    if ys == [] {
      assert xs + ys == xs;
    } else {
      var ys', y := ys[..|ys| - 1], ys[|ys| - 1];
      AddedAppend(order, lists, xs, ys');
      assert ys == ys' + [y];
      assert xs + ys == (xs + ys') + [y];
      AddedSnoc(AddedOrder(order, lists, xs), AddedLists(lists, xs), ys', y);
      AddedSnoc(order, lists, xs + ys', y);
    }
  }

  /** Adding `xs` and then `ys` is adding `xs + ys`. */
  lemma {:induction false} AddedMedicationsAppend(meds: map<string, seq<Medication>>, xs: seq<Medication>, ys: seq<Medication>)
    ensures AddedMedications(AddedMedications(meds, xs), ys) == AddedMedications(meds, xs + ys)
  {
    if ys == [] {
      assert xs + ys == xs;
    } else {
      var ys' := ys[..|ys| - 1];
      AddedMedicationsAppend(meds, xs, ys');
      assert (xs + ys)[..|xs + ys| - 1] == xs + ys';
    }
  }

  /** The episodes of `ds` with disease `id`, in order. */
  function OfId(ds: seq<Diagnosis>, id: DiseaseId): seq<Diagnosis>
  {
    if ds == [] then []
    else OfId(ds[..|ds| - 1], id) + (if ds[|ds| - 1].disease.Id() == id then [ds[|ds| - 1]] else [])
  }

  /** The inner loop of `add_diseases`: the episodes of one record added to their patient in order. */
  method AddEach(patient: Patient, ds: seq<Diagnosis>)
    modifies patient
    ensures patient.diagnoses == AddedLists(old(patient.diagnoses), ds)
    ensures patient.diseaseOrder == AddedOrder(old(patient.diseaseOrder), old(patient.diagnoses), ds)
    ensures patient.medications == old(patient.medications) && patient.chadsvascChanges == old(patient.chadsvascChanges)
  {
    for j := 0 to |ds|
      invariant patient.diagnoses == AddedLists(old(patient.diagnoses), ds[..j])
      invariant patient.diseaseOrder == AddedOrder(old(patient.diseaseOrder), old(patient.diagnoses), ds[..j])
      invariant patient.medications == old(patient.medications) && patient.chadsvascChanges == old(patient.chadsvascChanges)
    {
      AddedSnoc(old(patient.diseaseOrder), old(patient.diagnoses), ds[..j], ds[j]);
      assert ds[..j + 1] == ds[..j] + [ds[j]];
      patient.AddDiagnosis(ds[j]);
    }
    assert ds[..|ds|] == ds;
  }

  /**
   * `add_diseases`: every episode is added to its patient, record by record
   * and in list order. The first record of an unknown patient with an
   * episode raises `KeyError` (its number is returned); the records before
   * it have been added, the rest are not.
   */
  method AddDiseases(patients: map<int, Patient>, records: seq<(int, seq<Diagnosis>)>) returns (missing: Option<int>)
    modifies set p | p in patients.Values
    ensures var n := FirstUnknown(records, patients.Keys);
            missing == if n < |records| then Some(records[n].0) else None
    ensures var n := FirstUnknown(records, patients.Keys);
            forall p :: p in patients.Values ==>
              p.diagnoses == AddedLists(old(p.diagnoses), Routed(records[..n], patients, p))
    ensures var n := FirstUnknown(records, patients.Keys);
            forall p :: p in patients.Values ==>
              p.diseaseOrder == AddedOrder(old(p.diseaseOrder), old(p.diagnoses), Routed(records[..n], patients, p))
    ensures forall p :: p in patients.Values ==> p.medications == old(p.medications) && p.chadsvascChanges == old(p.chadsvascChanges)
  {
    // Every record before the first unknown one is added; that one raises.
    var n := FirstUnknown(records, patients.Keys);
    for i := 0 to n
      invariant forall p :: p in patients.Values ==>
                  p.diagnoses == AddedLists(old(p.diagnoses), Routed(records[..i], patients, p))
      invariant forall p :: p in patients.Values ==>
                  p.diseaseOrder == AddedOrder(old(p.diseaseOrder), old(p.diagnoses), Routed(records[..i], patients, p))
      invariant forall p :: p in patients.Values ==> p.medications == old(p.medications) && p.chadsvascChanges == old(p.chadsvascChanges)
    {
      var (nr, ds) := records[i];
      if nr in patients {
        var patient := patients[nr];
        ghost var routed := Routed(records[..i], patients, patient);
        assert patient.diagnoses == AddedLists(old(patient.diagnoses), routed);
        assert patient.diseaseOrder == AddedOrder(old(patient.diseaseOrder), old(patient.diagnoses), routed);
        AddEach(patient, ds);
        forall p | p in patients.Values
          ensures p.diagnoses == AddedLists(old(p.diagnoses), Routed(records[..i + 1], patients, p))
          ensures p.diseaseOrder == AddedOrder(old(p.diseaseOrder), old(p.diagnoses), Routed(records[..i + 1], patients, p))
        {
          RoutedSnoc(records, i, patients, p);
          if p == patient {
            AddedAppend(old(p.diseaseOrder), old(p.diagnoses), routed, ds);
            assert Routed(records[..i + 1], patients, p) == routed + ds;
          } else {
            assert Routed(records[..i + 1], patients, p) == Routed(records[..i], patients, p);
          }
        }
      } else {
        forall p | p in patients.Values
          ensures Routed(records[..i + 1], patients, p) == Routed(records[..i], patients, p)
        {
          RoutedSnoc(records, i, patients, p);
        }
      }
    }
    missing := if n < |records| then Some(records[n].0) else None;
  }

  /** The inner loop of `add_medications` for a known patient: its medications added in order. */
  method AddEachMedication(patient: Patient, ms: seq<Medication>)
    modifies patient
    ensures patient.medications == AddedMedications(old(patient.medications), ms)
    ensures patient.diseaseOrder == old(patient.diseaseOrder) && patient.diagnoses == old(patient.diagnoses)
    ensures patient.chadsvascChanges == old(patient.chadsvascChanges)
  {
    for j := 0 to |ms|
      invariant patient.medications == AddedMedications(old(patient.medications), ms[..j])
      invariant patient.diseaseOrder == old(patient.diseaseOrder) && patient.diagnoses == old(patient.diagnoses)
      invariant patient.chadsvascChanges == old(patient.chadsvascChanges)
    {
      AddedMedicationsSnoc(old(patient.medications), ms[..j], ms[j]);
      assert ms[..j + 1] == ms[..j] + [ms[j]];
      patient.AddMedication(ms[j]);
    }
    assert ms[..|ms|] == ms;
  }

  /**
   * `add_medications`: every medication of a known patient is added to it,
   * record by record and in list order; the medications of an unknown
   * patient are skipped, each lookup's `KeyError` being caught.
   */
  method AddMedications(patients: map<int, Patient>, records: seq<(int, seq<Medication>)>)
    modifies set p | p in patients.Values
    ensures forall p :: p in patients.Values ==> p.medications == AddedMedications(old(p.medications), Routed(records, patients, p))
    ensures forall p :: p in patients.Values ==>
              p.diseaseOrder == old(p.diseaseOrder) && p.diagnoses == old(p.diagnoses) && p.chadsvascChanges == old(p.chadsvascChanges)
  {
    for i := 0 to |records|
      invariant forall p :: p in patients.Values ==> p.medications == AddedMedications(old(p.medications), Routed(records[..i], patients, p))
      invariant forall p :: p in patients.Values ==>
                  p.diseaseOrder == old(p.diseaseOrder) && p.diagnoses == old(p.diagnoses) && p.chadsvascChanges == old(p.chadsvascChanges)
    {
      var (nr, ms) := records[i];
      if nr in patients {
        var patient := patients[nr];
        ghost var routed := Routed(records[..i], patients, patient);
        assert patient.medications == AddedMedications(old(patient.medications), routed);
        AddEachMedication(patient, ms);
        forall p | p in patients.Values
          ensures p.medications == AddedMedications(old(p.medications), Routed(records[..i + 1], patients, p))
        {
          RoutedSnoc(records, i, patients, p);
          if p == patient {
            AddedMedicationsAppend(old(p.medications), routed, ms);
            assert Routed(records[..i + 1], patients, p) == routed + ms;
            assert p.medications == AddedMedications(AddedMedications(old(p.medications), routed), ms);
          } else {
            assert Routed(records[..i + 1], patients, p) == Routed(records[..i], patients, p);
            assert p.medications == AddedMedications(old(p.medications), Routed(records[..i], patients, p));
          }
        }
      } else {
        forall p | p in patients.Values
          ensures Routed(records[..i + 1], patients, p) == Routed(records[..i], patients, p)
        {
          RoutedSnoc(records, i, patients, p);
        }
      }
    }
    assert records[..|records|] == records;
  }

  /** The identities of the diseases of the episodes in `ds`. */
  function DiseasesIn(ds: seq<Diagnosis>): set<DiseaseId>
  {
    set d | d in ds :: d.disease.Id()
  }

  /** The identities of the diseases over every episode of every record. */
  function AllDiseases(records: seq<(int, seq<Diagnosis>)>): (ids: set<DiseaseId>)
    ensures forall i :: 0 <= i < |records| ==> DiseasesIn(records[i].1) <= ids
    ensures forall id :: id in ids ==> exists i :: 0 <= i < |records| && id in DiseasesIn(records[i].1)
  {
    if records == [] then {}
    else AllDiseases(records[..|records| - 1]) + DiseasesIn(records[|records| - 1].1)
  }

  /** A disease is collected exactly when some episode of some record has it. */
  lemma AllDiseasesMembers(records: seq<(int, seq<Diagnosis>)>, id: DiseaseId)
    ensures id in AllDiseases(records) <==>
            exists i, j :: 0 <= i < |records| && 0 <= j < |records[i].1| && records[i].1[j].disease.Id() == id
  {
    if id in AllDiseases(records) {
      var i :| 0 <= i < |records| && id in DiseasesIn(records[i].1);
      var d :| d in records[i].1 && d.disease.Id() == id;
      var j :| 0 <= j < |records[i].1| && records[i].1[j] == d;
    }
    if exists i, j :: 0 <= i < |records| && 0 <= j < |records[i].1| && records[i].1[j].disease.Id() == id {
      var i, j :| 0 <= i < |records| && 0 <= j < |records[i].1| && records[i].1[j].disease.Id() == id;
      assert records[i].1[j] in records[i].1;
      assert id in DiseasesIn(records[i].1);
    }
  }

  /**
   * `get_all_diseases`: every episode's disease added to a set, record by
   * record. Diseases are collected by identity, as the set hashes them.
   */
  method GetAllDiseases(records: seq<(int, seq<Diagnosis>)>) returns (diseases: set<DiseaseId>)
    ensures diseases == AllDiseases(records)
  {
    diseases := {};
    for i := 0 to |records|
      invariant diseases == AllDiseases(records[..i])
    {
      var (_, ds) := records[i];
      assert records[..i + 1][..i] == records[..i];
      for j := 0 to |ds|
        invariant diseases == AllDiseases(records[..i]) + DiseasesIn(ds[..j])
      {
        assert DiseasesIn(ds[..j + 1]) == DiseasesIn(ds[..j]) + {ds[j].disease.Id()} by {
          assert ds[..j + 1] == ds[..j] + [ds[j]];
        }
        diseases := diseases + {ds[j].disease.Id()};
      }
      assert ds[..|ds|] == ds;
    }
    assert records[..|records|] == records;
  }

  /** The number of episodes of disease `id` over all records. */
  function Count(records: seq<(int, seq<Diagnosis>)>, id: DiseaseId): (n: nat)
    ensures n > 0 <==> exists i :: 0 <= i < |records| && OfId(records[i].1, id) != []
  {
    if records == [] then 0
    else Count(records[..|records| - 1], id) + |OfId(records[|records| - 1].1, id)|
  }

  /** A list has an episode of a disease exactly when that disease is among its diseases. */
  lemma {:induction false} OfIdNonEmpty(ds: seq<Diagnosis>, id: DiseaseId)
    ensures OfId(ds, id) != [] <==> id in DiseasesIn(ds)
  {
    if ds != [] {
      var init := ds[..|ds| - 1];
      OfIdNonEmpty(init, id);
      assert ds == init + [ds[|ds| - 1]];
      assert DiseasesIn(ds) == DiseasesIn(init) + {ds[|ds| - 1].disease.Id()};
    }
  }

  /** A disease is counted at least once exactly when it is among all diseases. */
  lemma {:induction false} CountPositive(records: seq<(int, seq<Diagnosis>)>, id: DiseaseId)
    ensures Count(records, id) > 0 <==> id in AllDiseases(records)
  {
    if records != [] {
      CountPositive(records[..|records| - 1], id);
      OfIdNonEmpty(records[|records| - 1].1, id);
    }
  }

  /** The identities of the given diseases. */
  function Ids(diseases: seq<Disease>): set<DiseaseId>
  {
    set d | d in diseases :: d.Id()
  }

  /**
   * `get_disease_frequency`: a counter per given disease, starting at 0 and
   * raised once per episode of that disease; episodes of other diseases are
   * skipped.
   */
  method GetDiseaseFrequency(diseases: seq<Disease>, records: seq<(int, seq<Diagnosis>)>)
    returns (frequency: map<DiseaseId, nat>)
    ensures frequency.Keys == Ids(diseases)
    ensures forall id :: id in frequency ==> frequency[id] == Count(records, id)
  {
    frequency := map id | id in Ids(diseases) :: 0;
    for i := 0 to |records|
      invariant frequency.Keys == Ids(diseases)
      invariant forall id :: id in frequency ==> frequency[id] == Count(records[..i], id)
    {
      var (_, ds) := records[i];
      assert records[..i + 1][..i] == records[..i];
      for j := 0 to |ds|
        invariant frequency.Keys == Ids(diseases)
        invariant forall id :: id in frequency ==> frequency[id] == Count(records[..i], id) + |OfId(ds[..j], id)|
      {
        assert ds[..j + 1][..j] == ds[..j];
        var id := ds[j].disease.Id();
        if id in frequency {
          frequency := frequency[id := frequency[id] + 1];
        }
      }
      assert ds[..|ds|] == ds;
    }
    assert records[..|records|] == records;
  }

  /** The given diseases with at least `minFrequency` episodes. */
  function Frequent(diseases: seq<Disease>, records: seq<(int, seq<Diagnosis>)>, minFrequency: int): set<DiseaseId>
  {
    set id | id in Ids(diseases) && Count(records, id) >= minFrequency
  }

  /** `reduce_feature_space`: the given diseases whose frequency reaches `minFrequency`. */
  method ReduceFeatureSpace(diseases: seq<Disease>, records: seq<(int, seq<Diagnosis>)>, minFrequency: int)
    returns (reduced: set<DiseaseId>)
    ensures forall id :: id in reduced <==> id in Ids(diseases) && Count(records, id) >= minFrequency
  {
    var frequency := GetDiseaseFrequency(diseases, records);
    reduced := set id | id in frequency && frequency[id] >= minFrequency;
  }

  /**
   * Raising the threshold never keeps more diseases, and a positive
   * threshold keeps only diseases that occur in some episode.
   */
  lemma FrequentShrinks(diseases: seq<Disease>, records: seq<(int, seq<Diagnosis>)>, low: int, high: int)
    requires low <= high
    ensures Frequent(diseases, records, high) <= Frequent(diseases, records, low)
    ensures 1 <= low ==> Frequent(diseases, records, low) <= AllDiseases(records)
  {
    if 1 <= low {
      forall id | id in Frequent(diseases, records, low)
        ensures id in AllDiseases(records)
      {
        CountPositive(records, id);
      }
    }
  }

  /** How often TEST 1 and TEST 2 occur in the main-function test records. */
  lemma FixtureCountsOf(a: Diagnosis, b: Diagnosis, c: Diagnosis, e: Diagnosis, t1: Disease, t2: Disease)
    requires a.disease == t1 && b.disease == t1 && c.disease == t1 && e.disease == t2
    requires t1.Id() != t2.Id()
    ensures var records := [(2, [a]), (5, [a, b]), (7, [c, b]), (9, [a, e])];
            Count(records, t1.Id()) == 6 && Count(records, t2.Id()) == 1
  {
    var records := [(2, [a]), (5, [a, b]), (7, [c, b]), (9, [a, e])];
    var r1, r2, r3 := records[..1], records[..2], records[..3];
    assert r3 == records[..3] && r3[..2] == r2 && r2[..1] == r1 && r1[..0] == [];
    assert [a, e][..1] == [a] && [a, b][..1] == [a] && [c, b][..1] == [c];
    assert |OfId([a], t1.Id())| == 1 && OfId([a], t2.Id()) == [];
    assert |OfId([a, b], t1.Id())| == 2 && OfId([a, b], t2.Id()) == [];
    assert |OfId([c, b], t1.Id())| == 2 && OfId([c, b], t2.Id()) == [];
    assert |OfId([a, e], t1.Id())| == 1 && |OfId([a, e], t2.Id())| == 1;
    assert Count(r1, t1.Id()) == 1 && Count(r1, t2.Id()) == 0;
    assert Count(r2, t1.Id()) == 3 && Count(r2, t2.Id()) == 0;
    assert Count(r3, t1.Id()) == 5 && Count(r3, t2.Id()) == 0;
  }

  /**
   * The shape of the main-function test records: four patients with TEST 1
   * episodes `a`, `b`, `c` and one TEST 2 episode `e`.
   */
  lemma FixtureCounts(a: Diagnosis, b: Diagnosis, c: Diagnosis, e: Diagnosis, t1: Disease, t2: Disease)
    requires a.disease == t1 && b.disease == t1 && c.disease == t1 && e.disease == t2
    requires t1.Id() != t2.Id()
    ensures var records := [(2, [a]), (5, [a, b]), (7, [c, b]), (9, [a, e])];
            AllDiseases(records) == {t1.Id(), t2.Id()}
            && Count(records, t1.Id()) == 6 && Count(records, t2.Id()) == 1
            && Frequent([t1, t2], records, 3) == {t1.Id()}
  {
    var records := [(2, [a]), (5, [a, b]), (7, [c, b]), (9, [a, e])];
    var r1, r2, r3 := records[..1], records[..2], records[..3];
    FixtureCountsOf(a, b, c, e, t1, t2);
    assert r3 == records[..3] && r3[..2] == r2 && r2[..1] == r1 && r1[..0] == [];
    assert [a, e][..1] == [a] && [a, b][..1] == [a] && [c, b][..1] == [c];
    assert DiseasesIn([a]) == {t1.Id()} && DiseasesIn([a, b]) == {t1.Id()} && DiseasesIn([c, b]) == {t1.Id()};
    assert DiseasesIn([a, e]) == {t1.Id(), t2.Id()};
    assert AllDiseases(r1) == {t1.Id()};
    assert AllDiseases(r2) == {t1.Id()};
    assert AllDiseases(r3) == {t1.Id()};
    assert Ids([t1, t2]) == {t1.Id(), t2.Id()};
  }

  /** The fixture of the main-function tests. */
  lemma MainFixture()
    ensures var t1 := Disease("TEST", "1", None);
            var t2 := Disease("TEST", "2", None);
            var records := [
              (2, [Diagnosis(t1, CalendarDate(2005, 1, 1), CalendarDate(2005, 12, 31), None)]),
              (5, [Diagnosis(t1, CalendarDate(2005, 1, 1), CalendarDate(2005, 12, 31), None),
                   Diagnosis(t1, CalendarDate(2006, 1, 1), CalendarDate(2006, 12, 31), None)]),
              (7, [Diagnosis(t1, CalendarDate(2005, 1, 1), CalendarDate(2005, 6, 30), None),
                   Diagnosis(t1, CalendarDate(2006, 1, 1), CalendarDate(2006, 12, 31), None)]),
              (9, [Diagnosis(t1, CalendarDate(2005, 1, 1), CalendarDate(2005, 12, 31), None),
                   Diagnosis(t2, CalendarDate(2006, 1, 1), CalendarDate(2006, 12, 31), None)])];
            AllDiseases(records) == {t1.Id(), t2.Id()}
            && Count(records, t1.Id()) == 6 && Count(records, t2.Id()) == 1
            && Frequent([t1, t2], records, 3) == {t1.Id()}
  {
    var t1 := Disease("TEST", "1", None);
    var t2 := Disease("TEST", "2", None);
    var a := Diagnosis(t1, CalendarDate(2005, 1, 1), CalendarDate(2005, 12, 31), None);
    var b := Diagnosis(t1, CalendarDate(2006, 1, 1), CalendarDate(2006, 12, 31), None);
    var c := Diagnosis(t1, CalendarDate(2005, 1, 1), CalendarDate(2005, 6, 30), None);
    var e := Diagnosis(t2, CalendarDate(2006, 1, 1), CalendarDate(2006, 12, 31), None);
    assert t1.Id() != t2.Id() by {
      assert t1.Id().diag[0] != t2.Id().diag[0];
    }
    FixtureCounts(a, b, c, e, t1, t2);
  }
}
