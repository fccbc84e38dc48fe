/**
 * The anticoagulation policies of anticoagulant_decision.py: a score
 * threshold, a lookup in the precomputed change timeline, and a window
 * after a recorded stroke.
 */
module AnticoagulantDecision {
  import opened Dates
  import opened Timeline
  import opened ChangeEvents
  import opened Patients

  /** `chads_vasc`: whether the score at `t` is at least 3; `max_value` plays no part. */
  predicate ChadsVascDecision(patient: Patient, t: Date, maxValue: int)
    reads patient
    ensures ChadsVascDecision(patient, t, maxValue) <==> patient.Score(t) >= 3
    ensures IsFemale(patient.sex) && CalculateAge(patient.birthDate, t) >= 75 ==> ChadsVascDecision(patient, t, maxValue)
  {
    ChadsVasc(patient.diagnoses, patient.birthDate, patient.sex, t) >= 3
  }

  /** Once the threshold decision holds it keeps holding, whatever `max_value` is passed. */
  lemma ChadsVascDecisionIsMonotone(patient: Patient, t1: Date, t2: Date, m1: int, m2: int)
    requires NotAfter(t1, t2) && ChadsVascDecision(patient, t1, m1)
    ensures ChadsVascDecision(patient, t2, m2)
  {
    ScoreIsMonotone(Tables, patient.diagnoses, patient.birthDate, patient.sex, t1, t2);
  }

  /**
   * `event_based`: the scan of the patient's change timeline, the same
   * lookup `Patient.should_have_AC(t, "event")` does. The source spells the
   * attribute `chads_vasc_changes`; it is read here as the patient's
   * `chadsvasc_changes`, the only timeline a patient has.
   */
  method EventBased(patient: Patient, t: Date) returns (r: bool)
    ensures r == EventDecision(patient.chadsvascChanges, t)
    ensures patient.chadsvascChanges == [] ==> !r
  {
    r := ScanEvents(patient.chadsvascChanges, t);
  }

  /** A stroke on `s` calls for anticoagulation from `s` to six months later, both ends included. */
  predicate InStrokeWindow(s: Date, t: Date)
    ensures s == t ==> InStrokeWindow(s, t)
    ensures InStrokeWindow(s, t) ==> t.year * 12 + t.month <= s.year * 12 + s.month + 6
  {
    AddMonthsAdvances(s, 6);
    BeforeIsCalendarOrder(AddMonths(s, 6), t);
    NotAfter(s, t) && NotAfter(t, AddMonths(s, 6))
  }

  /** `future_stroke`: some recorded stroke's window holds `t`; `months` plays no part. */
  method FutureStroke(patient: Patient, t: Date, months: int) returns (r: bool)
    ensures r <==> exists i :: 0 <= i < |patient.queries.strokes| && InStrokeWindow(patient.queries.strokes[i], t)
  {
    var strokes := patient.queries.strokes;
    var i := 0;
    while i < |strokes|
      invariant 0 <= i <= |strokes|
      invariant forall j :: 0 <= j < i ==> !InStrokeWindow(strokes[j], t)
    {
      if NotAfter(strokes[i], t) && NotAfter(t, AddMonths(strokes[i], 6)) {
        return true;
      }
      i := i + 1;
    }
    return false;
  }

  /** The window opens on the stroke day and covers the day six calendar months later. */
  lemma StrokeWindowBounds(s: Date, t: Date)
    ensures InStrokeWindow(s, s) && InStrokeWindow(s, AddMonths(s, 6))
    ensures Before(t, s) ==> !InStrokeWindow(s, t)
    ensures Before(AddMonths(s, 6), t) ==> !InStrokeWindow(s, t)
  {
    AddMonthsAdvances(s, 6);
  }
}
