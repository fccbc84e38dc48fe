/** A medication episode: an ATC code over a date range, ordered by start date. */
module Medications {
  import opened Dates

  datatype Medication = Medication(code: string, start: Date, end: Date)

  /** `Medication.__lt__`: the earlier start date comes first. */
  predicate Less(a: Medication, b: Medication)
    ensures Less(a, b) <==> CalendarBefore(a.start, b.start)
    ensures a.start == b.start ==> !Less(a, b)
  {
    BeforeIsCalendarOrder(a.start, b.start);
    Before(a.start, b.start)
  }

  /** `Medication.__eq__`: code and both dates equal. */
  predicate Equal(a: Medication, b: Medication)
    ensures Equal(a, b) <==> a == b
  {
    a.code == b.code && a.start == b.start && a.end == b.end
  }

  /** `Medication.__repr__`: `code start~end`. */
  function Repr(m: Medication): (r: string)
    ensures |r| == |m.code| + 2 + |IsoFormat(m.start)| + |IsoFormat(m.end)|
    ensures r[..|m.code| + 1] == m.code + " "
    ensures r[|m.code| + 1..|m.code| + 1 + |IsoFormat(m.start)|] == IsoFormat(m.start)
    ensures r[|m.code| + 1 + |IsoFormat(m.start)|] == '~'
    ensures r[|m.code| + 2 + |IsoFormat(m.start)|..] == IsoFormat(m.end)
  {
    m.code + " " + IsoFormat(m.start) + "~" + IsoFormat(m.end)
  }

  /** `<` is a strict order on start dates that ignores code and end date. */
  lemma LessIsStrictOrderOnStarts(a: Medication, b: Medication, c: Medication)
    ensures !Less(a, a)
    ensures Less(a, b) && Less(b, c) ==> Less(a, c)
    ensures Less(a, b) <==> CalendarBefore(a.start, b.start)
    ensures a.start == b.start ==> !Less(a, b) && !Less(b, a)
  {
    BeforeIsCalendarOrder(a.start, b.start);
  }

  /** Equality is structural: it coincides with equality of the values. */
  lemma EqualIsStructural(a: Medication, b: Medication)
    ensures Equal(a, b) <==> a == b
  {
  }

  lemma ReprExample()
    ensures Repr(Medication("B00BB01", CalendarDate(2010, 6, 1), CalendarDate(2010, 6, 7)))
            == "B00BB01 2010-06-01~2010-06-07"
  {
  }
}
