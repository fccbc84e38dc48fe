/**
 * The pure queries of a patient record: whether a disease is present at a
 * date, the age at a date, the sex test and the CHA2DS2-VASc score. The
 * record's diagnoses are a map from disease identity to the episodes added
 * for it, in the order they were added.
 */
module Timeline {
  import opened Dates
  import opened Diseases
  import opened Diagnoses
  import opened DiseaseGroups

  type DiagnosisLists = map<DiseaseId, seq<Diagnosis>>

  /** One episode answers the query at `t`: started by `t`, and still running unless chronic. */
  predicate Covers(d: Diagnosis, t: Date, chronic: bool)
  {
    (NotAfter(d.start, t) && chronic) || (NotAfter(d.start, t) && NotAfter(t, d.end))
  }

  /** The scan over one disease's episodes, returning at the first that answers. */
  function FirstCovering(episodes: seq<Diagnosis>, t: Date, chronic: bool): (found: bool)
    ensures found <==> exists i :: 0 <= i < |episodes| && NotAfter(episodes[i].start, t)
                                   && (chronic || NotAfter(t, episodes[i].end))
  {
    if episodes == [] then false
    else if Covers(episodes[0], t, chronic) then true
    else
      assert forall i :: 1 <= i < |episodes| ==> episodes[i] == episodes[1..][i - 1];
      FirstCovering(episodes[1..], t, chronic)
  }

  /**
   * `Patient.has_disease`: false for a disease never recorded; with `chronic`
   * (the default) true iff some episode started by `t`, otherwise true iff
   * some episode runs over `t`.
   */
  predicate HasDisease(lists: DiagnosisLists, id: DiseaseId, t: Date, chronic: bool)
    ensures HasDisease(lists, id, t, chronic) <==>
            id in lists && exists i :: 0 <= i < |lists[id]| && Covers(lists[id][i], t, chronic)
  {
    id in lists && FirstCovering(lists[id], t, chronic)
  }

  /** A chronic disease, once present, stays present. */
  lemma ChronicPresenceIsMonotone(lists: DiagnosisLists, id: DiseaseId, t1: Date, t2: Date)
    requires NotAfter(t1, t2) && HasDisease(lists, id, t1, true)
    ensures HasDisease(lists, id, t2, true)
  {
    var i :| 0 <= i < |lists[id]| && NotAfter(lists[id][i].start, t1);
    assert NotAfter(lists[id][i].start, t2);
  }

  /** `Patient.calculate_age`: whole years, one less before the birthday's month and day. */
  function CalculateAge(birth: Date, t: Date): (age: int)
    ensures BirthdayReached(birth, t) ==> age == t.year - birth.year
    ensures !BirthdayReached(birth, t) ==> age == t.year - birth.year - 1
  {
    var age := t.year - birth.year;
    if t.month < birth.month then age - 1
    else if t.month == birth.month && birth.day > t.day then age - 1
    else age
  }

  /** The (month, day) of `t` is not before that of the birthday. */
  predicate BirthdayReached(birth: Date, t: Date)
  {
    t.month > birth.month || (t.month == birth.month && t.day >= birth.day)
  }

  /**
   * The age reaches `n` exactly when `t`, compared field by field, is not
   * before year `birth.year + n` at the birthday's month and day (a date
   * that does not exist for a 29 February birthday outside leap years).
   */
  lemma AgeReachedOnBirthday(birth: Date, t: Date, n: int)
    ensures CalculateAge(birth, t) >= n <==>
            !CalendarBefore(t, CalendarDate(birth.year + n, birth.month, birth.day))
  {
  }

  /** Age never decreases with time. */
  lemma AgeIsMonotone(birth: Date, t1: Date, t2: Date)
    requires NotAfter(t1, t2)
    ensures CalculateAge(birth, t1) <= CalculateAge(birth, t2)
  {
    BeforeIsCalendarOrder(t1, t2);
    BeforeIsCalendarOrder(t2, t1);
  }

  /** For a birthday other than 29 February, the age reaches `n` on `birth + relativedelta(years=n)`. */
  lemma AgeReachedOnAddYears(birth: Date, t: Date, n: nat)
    requires !(birth.month == 2 && birth.day == 29)
    ensures CalculateAge(birth, t) >= n <==> NotAfter(AddYears(birth, n), t)
  {
    AgeReachedOnBirthday(birth, t, n);
    BeforeIsCalendarOrder(t, AddYears(birth, n));
  }

  /** ASCII lower-casing, which is what `str.lower` does to the letters that matter here. */
  function LowerCase(s: string): (r: string)
    ensures |r| == |s|
    ensures forall i :: 0 <= i < |s| ==> r[i] == (if 'A' <= s[i] <= 'Z' then (s[i] as int + 32) as char else s[i])
  {
    if s == [] then []
    else [if 'A' <= s[0] <= 'Z' then (s[0] as int + 32) as char else s[0]] + LowerCase(s[1..])
  }

  /** `Patient.is_female`: the lower-cased sex code is "v" (Dutch) or "f". */
  predicate IsFemale(sex: string)
    ensures IsFemale(sex) <==> sex in {"v", "V", "f", "F"}
  {
    var female := LowerCase(sex) == "v" || LowerCase(sex) == "f";
    assert female ==> sex == [sex[0]];
    female
  }

  /** `any(has_disease(d, t, chronic=True) for d in group)`. */
  predicate GroupPresent(lists: DiagnosisLists, group: seq<Disease>, t: Date)
  {
    exists i :: 0 <= i < |group| && HasDisease(lists, group[i].Id(), t, true)
  }

  function Points(present: bool, weight: int): int
  {
    if present then weight else 0
  }

  function AgePoints(age: int): int
  {
    if age >= 75 then 2 else if age >= 65 then 1 else 0
  }

  /**
   * The five disease groups the score counts. `patient.py` takes them from a
   * module that is not part of this model; the model uses the tables of
   * `disease_groups.py`.
   */
  datatype ScoreGroups = ScoreGroups(heartFailure: seq<Disease>, hypertension: seq<Disease>, diabetes: seq<Disease>,
                                     stroke: seq<Disease>, vascular: seq<Disease>)

  const Tables := ScoreGroups(ChadsVascC, ChadsVascH, ChadsVascD, ChadsVascS, ChadsVascV)

  /**
   * The CHA2DS2-VASc score over the given groups: one point each for heart
   * failure, hypertension, diabetes and vascular disease, two for stroke or
   * TIA, all counted as chronic; two at 75 or older, one at 65 to 74; one if
   * female.
   */
  function ScoreWith(groups: ScoreGroups, lists: DiagnosisLists, birth: Date, sex: string, t: Date): (score: int)
    ensures 0 <= score <= 9
  {
    Points(GroupPresent(lists, groups.heartFailure, t), 1)
    + Points(GroupPresent(lists, groups.hypertension, t), 1)
    + Points(GroupPresent(lists, groups.diabetes, t), 1)
    + Points(GroupPresent(lists, groups.stroke, t), 2)
    + Points(GroupPresent(lists, groups.vascular, t), 1)
    + AgePoints(CalculateAge(birth, t))
    + Points(IsFemale(sex), 1)
  }

  /** `Patient.calculate_chads_vasc`: the score over the CHA2DS2-VASc tables, between 0 and 9. */
  function ChadsVasc(lists: DiagnosisLists, birth: Date, sex: string, t: Date): (score: int)
    ensures 0 <= score <= 9
  {
    ScoreWith(Tables, lists, birth, sex, t)
  }

  lemma GroupPresenceIsMonotone(lists: DiagnosisLists, group: seq<Disease>, t1: Date, t2: Date)
    requires NotAfter(t1, t2) && GroupPresent(lists, group, t1)
    ensures GroupPresent(lists, group, t2)
  {
    var i :| 0 <= i < |group| && HasDisease(lists, group[i].Id(), t1, true);
    ChronicPresenceIsMonotone(lists, group[i].Id(), t1, t2);
  }

  /** The score never decreases with time: diagnoses count as chronic and age only grows. */
  lemma ScoreIsMonotone(groups: ScoreGroups, lists: DiagnosisLists, birth: Date, sex: string, t1: Date, t2: Date)
    requires NotAfter(t1, t2)
    ensures ScoreWith(groups, lists, birth, sex, t1) <= ScoreWith(groups, lists, birth, sex, t2)
  {
    AgeIsMonotone(birth, t1, t2);
    forall group | group in [groups.heartFailure, groups.hypertension, groups.diabetes, groups.stroke, groups.vascular]
      ensures GroupPresent(lists, group, t1) ==> GroupPresent(lists, group, t2)
    {
      if GroupPresent(lists, group, t1) {
        GroupPresenceIsMonotone(lists, group, t1, t2);
      }
    }
  }

  /** The age fixture: born 1970-06-06, 9 until 1980-06-05 and 10 from 1980-06-06. */
  lemma AgeFixture()
    ensures var birth := CalendarDate(1970, 6, 6);
            CalculateAge(birth, CalendarDate(1980, 5, 5)) == 9 && CalculateAge(birth, CalendarDate(1980, 5, 7)) == 9
            && CalculateAge(birth, CalendarDate(1980, 6, 5)) == 9 && CalculateAge(birth, CalendarDate(1980, 6, 6)) == 10
            && CalculateAge(birth, CalendarDate(1980, 6, 7)) == 10 && CalculateAge(birth, CalendarDate(1980, 7, 5)) == 10
  {
  }

  /**
   * The presence fixture, chronic queries: a disease with episodes in 2005
   * and 2006 is absent on 2004-12-31, present from 2005-01-01 on and still
   * present in 2007; a disease never recorded is absent.
   */
  lemma HasDiseaseFixtureChronic()
    ensures var test1 := Disease("TEST", "1", Wrappers.None);
            var lists := map[test1.Id() := [Diagnosis(test1, CalendarDate(2005, 1, 1), CalendarDate(2005, 12, 31), Wrappers.None),
                                           Diagnosis(test1, CalendarDate(2006, 1, 1), CalendarDate(2006, 12, 31), Wrappers.None)]];
            !HasDisease(lists, test1.Id(), CalendarDate(2004, 12, 31), true)
            && HasDisease(lists, test1.Id(), CalendarDate(2005, 1, 1), true)
            && HasDisease(lists, test1.Id(), CalendarDate(2007, 1, 1), true)
            && !HasDisease(lists, DiseaseId("TEST", "3"), CalendarDate(2006, 7, 1), true)
  {
    var test1 := Disease("TEST", "1", Wrappers.None);
    var e1 := Diagnosis(test1, CalendarDate(2005, 1, 1), CalendarDate(2005, 12, 31), Wrappers.None);
    var e2 := Diagnosis(test1, CalendarDate(2006, 1, 1), CalendarDate(2006, 12, 31), Wrappers.None);
    var t0, t3 := CalendarDate(2004, 12, 31), CalendarDate(2007, 1, 1);
    BeforeIsCalendarOrder(t0, e1.start);
    BeforeIsCalendarOrder(t0, e2.start);
    BeforeIsCalendarOrder(e1.start, t3);
  }

  /**
   * The presence fixture, non-chronic queries: the disease is present on the
   * last day of its 2006 episode and absent once both episodes have ended.
   */
  lemma HasDiseaseFixtureEpisodes()
    ensures var test1 := Disease("TEST", "1", Wrappers.None);
            var lists := map[test1.Id() := [Diagnosis(test1, CalendarDate(2005, 1, 1), CalendarDate(2005, 12, 31), Wrappers.None),
                                           Diagnosis(test1, CalendarDate(2006, 1, 1), CalendarDate(2006, 12, 31), Wrappers.None)]];
            HasDisease(lists, test1.Id(), CalendarDate(2006, 12, 31), false)
            && !HasDisease(lists, test1.Id(), CalendarDate(2007, 1, 1), false)
  {
    var test1 := Disease("TEST", "1", Wrappers.None);
    var e1 := Diagnosis(test1, CalendarDate(2005, 1, 1), CalendarDate(2005, 12, 31), Wrappers.None);
    var e2 := Diagnosis(test1, CalendarDate(2006, 1, 1), CalendarDate(2006, 12, 31), Wrappers.None);
    var t2, t3 := CalendarDate(2006, 12, 31), CalendarDate(2007, 1, 1);
    BeforeIsCalendarOrder(e1.end, t3);
    BeforeIsCalendarOrder(e2.end, t3);
    BeforeIsCalendarOrder(e2.start, t2);
  }
}
