/**
 * A diagnosis episode: a disease over a date range, with the practitioner who
 * recorded it when known. Episodes order by start date only.
 */
module Diagnoses {
  import opened Wrappers
  import opened Dates
  import opened Diseases

  datatype Diagnosis = Diagnosis(disease: Disease, start: Date, end: Date, practitioner: Option<string>)

  /** `Diagnosis.__lt__`: the earlier start date comes first. */
  predicate Less(a: Diagnosis, b: Diagnosis)
    ensures Less(a, b) <==> CalendarBefore(a.start, b.start)
    ensures a.start == b.start ==> !Less(a, b)
  {
    BeforeIsCalendarOrder(a.start, b.start);
    Before(a.start, b.start)
  }

  /** The sort key `sorted` compares through `__lt__`. */
  function StartKey(d: Diagnosis): int
  {
    Ord(d.start)
  }

  /** `Diagnosis.__eq__`: every field equal, the disease by `Disease.__eq__`. */
  predicate Equal(a: Diagnosis, b: Diagnosis)
    ensures Equal(a, b) <==> a.(disease := a.disease.(description := None)) == b.(disease := b.disease.(description := None))
  {
    Diseases.Equal(a.disease, b.disease) && a.start == b.start && a.end == b.end
    && a.practitioner == b.practitioner
  }

  /** `Diagnosis.__repr__`: the disease, then `start~end`. */
  function Repr(d: Diagnosis): string
  {
    Diseases.Repr(d.disease) + " " + IsoFormat(d.start) + "~" + IsoFormat(d.end)
  }

  /**
   * `<` is a strict order decided by start dates alone, it agrees with the
   * sort key, and episodes starting on the same day are mutually not less.
   */
  lemma LessIsStrictOrderOnStarts(a: Diagnosis, b: Diagnosis, c: Diagnosis)
    ensures !Less(a, a)
    ensures Less(a, b) && Less(b, c) ==> Less(a, c)
    ensures Less(a, b) ==> !Less(b, a)
    ensures Less(a, b) <==> StartKey(a) < StartKey(b)
    ensures Less(a, b) <==> CalendarBefore(a.start, b.start)
    ensures a.start == b.start ==> !Less(a, b) && !Less(b, a)
  {
    BeforeIsCalendarOrder(a.start, b.start);
  }

  /** Equality is an equivalence that ignores disease descriptions. */
  lemma EqualIsEquivalence(a: Diagnosis, b: Diagnosis, c: Diagnosis)
    ensures Equal(a, a)
    ensures Equal(a, b) ==> Equal(b, a)
    ensures Equal(a, b) && Equal(b, c) ==> Equal(a, c)
    ensures Equal(a, b) <==> (a.disease.Id() == b.disease.Id() && a.start == b.start
                              && a.end == b.end && a.practitioner == b.practitioner)
  {
  }

  /** The fixture of the diagnosis tests. */
  lemma DiagnosisFixture()
    ensures var te1 := Disease("TE1", "000", Some("Test Disease 1"));
            var te1Bare := Disease("TE1", "000", None);
            var te1Other := Disease("TE1", "000", Some("Test Other Description"));
            var te2 := Disease("TE2", "001", Some("Test Disease 3"));
            var first := Diagnosis(te1, CalendarDate(2010, 1, 1), CalendarDate(2011, 1, 1), None);
            var half := Diagnosis(te1, CalendarDate(2010, 3, 1), CalendarDate(2010, 9, 1), None);
            var later := Diagnosis(te1, CalendarDate(2011, 1, 1), CalendarDate(2012, 1, 1), None);
            var other := Diagnosis(te2, CalendarDate(2010, 1, 1), CalendarDate(2011, 1, 1), None);
            Less(first, half) && Less(other, half) && Less(first, later)
            && Equal(first, Diagnosis(te1Bare, first.start, first.end, None))
            && Equal(first, Diagnosis(te1Other, first.start, first.end, None))
            && !Equal(first, half) && !Equal(first, later) && !Equal(first, other)
  {
    BeforeIsCalendarOrder(CalendarDate(2010, 1, 1), CalendarDate(2010, 3, 1));
    BeforeIsCalendarOrder(CalendarDate(2010, 1, 1), CalendarDate(2011, 1, 1));
  }
}
