/**
 * `Patient` (patient.py): the record of one patient, whose diagnosis lists,
 * medication lists and change timeline are updated in place.
 */
module Patients {
  import opened Wrappers
  import opened Dates
  import opened Diseases
  import opened Diagnoses
  import opened Medications
  import opened StableSort
  import opened Timeline
  import opened ChangeEvents

  /**
   * Queries the analysis code asks of a patient but whose definitions are
   * not part of this model (`is_alive`, `has_disease_group`,
   * `days_since_diagnosis`, `days_since_last_diagnosis` (None where it
   * raises), `has_medication_group`, `strokes`, `diagnoses.iter_diagnoses`).
   * They are fixed when the patient is created.
   */
  datatype ExternalQueries = ExternalQueries(
    isAlive: Date -> bool,
    hasDiseaseGroup: (seq<Disease>, Date) -> bool,
    daysSinceDiagnosis: (Disease, Date) -> int,
    daysSinceLastDiagnosis: Date -> Option<int>,
    hasMedicationGroup: (string, Date) -> bool,
    strokes: seq<Date>,
    iterDiagnoses: seq<Diagnosis>)

  /** The diagnosis lists after `add_diagnosis(d)`: `d` appended to its disease's list, created empty if missing. */
  function WithDiagnosis(lists: DiagnosisLists, d: Diagnosis): DiagnosisLists
  {
    var id := d.disease.Id();
    lists[id := (if id in lists then lists[id] else []) + [d]]
  }

  /** The disease order after `add_diagnosis(d)`: a new disease goes to the end of the dict's order. */
  function WithDiseaseOrder(order: seq<DiseaseId>, lists: DiagnosisLists, d: Diagnosis): seq<DiseaseId>
  {
    if d.disease.Id() in lists then order else order + [d.disease.Id()]
  }

  /** The medication lists after `add_medication(m)`, keyed by ATC code. */
  function WithMedication(meds: map<string, seq<Medication>>, m: Medication): map<string, seq<Medication>>
  {
    meds[m.code := (if m.code in meds then meds[m.code] else []) + [m]]
  }

  /** `order` lists the recorded diseases, each once. */
  ghost predicate OrderMatches(order: seq<DiseaseId>, lists: DiagnosisLists)
  {
    (forall id :: id in lists <==> id in order)
    && (forall i, j :: 0 <= i < j < |order| ==> order[i] != order[j])
  }

  /** Adding a diagnosis keeps the insertion order a listing of the recorded diseases. */
  lemma AddDiagnosisKeepsOrder(lists: DiagnosisLists, order: seq<DiseaseId>, d: Diagnosis)
    requires OrderMatches(order, lists)
    ensures OrderMatches(WithDiseaseOrder(order, lists, d), WithDiagnosis(lists, d))
  {
    var order' := WithDiseaseOrder(order, lists, d);
    if d.disease.Id() !in lists {
      forall i, j | 0 <= i < j < |order'|
        ensures order'[i] != order'[j]
      {
        if j == |order| {
          assert order[i] in order;
        }
      }
    }
  }

  /**
   * After adding `d`, a disease is present exactly when it was before or
   * `d` is its episode and answers the query.
   */
  lemma AddDiagnosisEffect(lists: DiagnosisLists, d: Diagnosis, id: DiseaseId, t: Date, chronic: bool)
    ensures HasDisease(WithDiagnosis(lists, d), id, t, chronic)
            <==> HasDisease(lists, id, t, chronic) || (id == d.disease.Id() && Covers(d, t, chronic))
  {
    if id == d.disease.Id() {
      var ep := if id in lists then lists[id] else [];
      var ep' := ep + [d];
      assert WithDiagnosis(lists, d)[id] == ep';
      if FirstCovering(ep', t, chronic) && !Covers(d, t, chronic) {
        var i :| 0 <= i < |ep'| && NotAfter(ep'[i].start, t) && (chronic || NotAfter(t, ep'[i].end));
        assert i < |ep|;
      }
      if FirstCovering(ep, t, chronic) {
        var i :| 0 <= i < |ep| && NotAfter(ep[i].start, t) && (chronic || NotAfter(t, ep[i].end));
        assert ep'[i] == ep[i];
      }
      if Covers(d, t, chronic) {
        assert ep'[|ep|] == d;
      }
    }
  }

  class Patient {
    const number: int
    const sex: string
    const birthDate: Date
    /** None when no death date was given (the ingestion uses 9999-12-31 for a living patient). */
    const deathDate: Option<Date>
    const queries: ExternalQueries

    /** `self.diagnoses`: the dict's insertion order and its contents. */
    var diseaseOrder: seq<DiseaseId>
    var diagnoses: DiagnosisLists
    var medications: map<string, seq<Medication>>
    var chadsvascChanges: seq<ChangeEvent>

    ghost predicate Valid()
      reads this
    {
      OrderMatches(diseaseOrder, diagnoses)
    }

    constructor (number: int, sex: string, birthDate: Date, deathDate: Option<Date>, queries: ExternalQueries)
      ensures Valid()
      ensures this.number == number && this.sex == sex && this.birthDate == birthDate
      ensures this.deathDate == deathDate && this.queries == queries
      ensures diseaseOrder == [] && diagnoses == map[] && medications == map[] && chadsvascChanges == []
    {
      this.number := number;
      this.sex := sex;
      this.birthDate := birthDate;
      this.deathDate := deathDate;
      this.queries := queries;
      diseaseOrder := [];
      diagnoses := map[];
      medications := map[];
      chadsvascChanges := [];
    }

    /** `add_diagnosis`. */
    method AddDiagnosis(d: Diagnosis)
      modifies this`diseaseOrder, this`diagnoses
      ensures old(Valid()) ==> Valid()
      ensures diagnoses == WithDiagnosis(old(diagnoses), d)
      ensures diseaseOrder == WithDiseaseOrder(old(diseaseOrder), old(diagnoses), d)
    {
      if Valid() {
        AddDiagnosisKeepsOrder(diagnoses, diseaseOrder, d);
      }
      var id := d.disease.Id();
      if id !in diagnoses {
        diagnoses := diagnoses[id := []];
        diseaseOrder := diseaseOrder + [id];
      }
      diagnoses := diagnoses[id := diagnoses[id] + [d]];
    }

    /** `add_medication`: the medication is appended to the list for its code. */
    method AddMedication(m: Medication)
      modifies this`medications
      ensures medications == WithMedication(old(medications), m)
    {
      if m.code !in medications {
        medications := medications[m.code := []];
      }
      medications := medications[m.code := medications[m.code] + [m]];
    }

    /** `calculate_chads_vasc`: between 0 and 9, with the sex and age points always included. */
    function Score(t: Date): (score: int)
      reads this
      ensures 0 <= score <= 9
      ensures IsFemale(sex) ==> score >= 1
      ensures CalculateAge(birthDate, t) >= 75 ==> score >= 2
      ensures CalculateAge(birthDate, t) >= 65 ==> score >= 1
    {
      ChadsVasc(diagnoses, birthDate, sex, t)
    }

    /** `is_dead`: None where the comparison with a missing death date raises. */
    function IsDead(t: Date): (r: Option<bool>)
      ensures r.None? <==> deathDate.None?
      ensures r.Some? ==> (r.value <==> Ord(deathDate.value) <= Ord(t))
    {
      if deathDate.None? then None else Some(NotAfter(deathDate.value, t))
    }

    /**
     * `find_chadsvasc_changes`: the birth event with score 0, one event per
     * diagnosis in dict order, and one on each of `birth + relativedelta(years=65)`
     * and `years=75`, sorted stably by date. For a 29 February birthday the
     * last two fall on 28 February, a day before the age changes (see README).
     */
    method FindChadsvascChanges()
      requires Valid()
      modifies this`chadsvascChanges
      ensures chadsvascChanges == AsWrittenChanges(diagnoses, diseaseOrder, birthDate, sex)
      ensures |chadsvascChanges| == 3 + EpisodeCount(diagnoses, diseaseOrder)
      ensures SortedBy(chadsvascChanges, EventKey)
      ensures multiset(chadsvascChanges)
              == multiset(RawChanges(diagnoses, diseaseOrder, birthDate, ScoreOf(Tables, diagnoses, birthDate, sex),
                                     AddYears(birthDate, 65), AddYears(birthDate, 75)))
      ensures StartsFromBirth(diagnoses, birthDate) ==> chadsvascChanges[0] == ChangeEvent(birthDate, 0)
    {
      var score := ScoreOf(Tables, diagnoses, birthDate, sex);
      var events := CollectDiagnosisEvents(diagnoses, diseaseOrder, score);
      var at65 := AddYears(birthDate, 65);
      var at75 := AddYears(birthDate, 75);
      var changes := [ChangeEvent(birthDate, 0)] + events
                     + [ChangeEvent(at65, score(at65)), ChangeEvent(at75, score(at75))];
      assert changes == RawChanges(diagnoses, diseaseOrder, birthDate, score, at65, at75);
      chadsvascChanges := SortByKey(changes, EventKey);
    }

    /**
     * `should_have_AC`: with method "event", the event lookup on the stored
     * timeline; otherwise whether the score at `t` is at least 3. On the
     * timeline find_chadsvasc_changes stores, for diagnoses that start on or
     * after birth and a birthday other than 29 February, the two answers
     * coincide.
     */
    method ShouldHaveAC(t: Date, method_: string) returns (r: bool)
      requires Valid()
      ensures method_ == "event" ==> r == EventDecision(chadsvascChanges, t)
      ensures method_ != "event" ==> r == (ChadsVasc(diagnoses, birthDate, sex, t) >= 3)
      ensures chadsvascChanges == AsWrittenChanges(diagnoses, diseaseOrder, birthDate, sex) && StartsFromBirth(diagnoses, birthDate)
              && !(birthDate.month == 2 && birthDate.day == 29)
              ==> r == (ChadsVasc(diagnoses, birthDate, sex, t) >= 3)
    {
      if chadsvascChanges == AsWrittenChanges(diagnoses, diseaseOrder, birthDate, sex) && StartsFromBirth(diagnoses, birthDate)
         && !(birthDate.month == 2 && birthDate.day == 29) {
        AsWrittenAgreesOffLeapDay(diagnoses, diseaseOrder, birthDate, sex, t);
      }
      if method_ == "event" {
        r := ScanEvents(chadsvascChanges, t);
      } else {
        r := ChadsVasc(diagnoses, birthDate, sex, t) >= 3;
      }
    }
  }
}
