/**
 * The precomputed CHA2DS2-VASc change timeline of a patient
 * (`Patient.find_chadsvasc_changes`) and the lookup that answers a decision
 * from it (`Patient.should_have_AC(t, "event")`, `event_based`).
 */
module ChangeEvents {
  import opened Dates
  import opened Diseases
  import opened Diagnoses
  import opened StableSort
  import opened Timeline
  import opened DiseaseGroups

  /** `ChadsvascChangeEvent`: a date and the score from that date on; ordered by date only. */
  datatype ChangeEvent = ChangeEvent(date: Date, score: int)

  function EventKey(e: ChangeEvent): int
  {
    Ord(e.date)
  }

  // ---------------------------------------------------------------------
  // The lookup
  // ---------------------------------------------------------------------

  /** The index of the first event dated after `t` (the `break` of the scan), or the length. */
  function FirstAfter(events: seq<ChangeEvent>, t: Date): (k: nat)
    ensures k <= |events|
    ensures forall i :: 0 <= i < k ==> NotAfter(events[i].date, t)
    ensures k < |events| ==> Before(t, events[k].date)
  {
    if events == [] || Before(t, events[0].date) then 0
    else 1 + FirstAfter(events[1..], t)
  }

  /**
   * The event decision: false without events; otherwise the score of the
   * last event before the first one dated after `t` (the first event when
   * it is already after `t`) is at least 3.
   */
  predicate EventDecision(events: seq<ChangeEvent>, t: Date)
    ensures events == [] ==> !EventDecision(events, t)
    ensures events != [] && Before(t, events[0].date) ==> (EventDecision(events, t) <==> events[0].score >= 3)
    ensures forall k :: LastReached(events, t, k) ==> (EventDecision(events, t) <==> events[k].score >= 3)
  {
    if events == [] then false
    else
      var k := FirstAfter(events, t);
      assert forall j :: LastReached(events, t, j) ==> j + 1 == k by {
        forall j | LastReached(events, t, j)
          ensures j + 1 == k
        {
          FirstAfterIs(events, t, j + 1);
        }
      }
      events[if k == 0 then 0 else k - 1].score >= 3
  }

  /** Event `k` ends the leading run of events dated on or before `t`. */
  predicate LastReached(events: seq<ChangeEvent>, t: Date, k: int)
  {
    0 <= k < |events| && (forall j :: 0 <= j <= k ==> NotAfter(events[j].date, t))
    && (k + 1 < |events| ==> Before(t, events[k + 1].date))
  }

  /** The index where the scan stops is the first one dated after `t`. */
  lemma FirstAfterIs(events: seq<ChangeEvent>, t: Date, k: nat)
    requires k <= |events|
    requires forall j :: 0 <= j < k ==> NotAfter(events[j].date, t)
    requires k < |events| ==> Before(t, events[k].date)
    ensures FirstAfter(events, t) == k
  {
  }

  /**
   * The scan of `should_have_AC(t, "event")` and of `event_based`: false on
   * an empty list; otherwise `tmp` starts at the first event and takes each
   * event until one is dated after `t`, and its score is compared with 3.
   */
  method ScanEvents(events: seq<ChangeEvent>, t: Date) returns (r: bool)
    ensures r == EventDecision(events, t)
  {
    if |events| == 0 {
      return false;
    }
    var tmp := events[0];
    var i := 0;
    while i < |events|
      invariant 0 <= i <= |events|
      invariant forall j :: 0 <= j < i ==> NotAfter(events[j].date, t)
      invariant tmp == events[if i == 0 then 0 else i - 1]
    {
      var e := events[i];
      if Before(t, e.date) {
        break;
      }
      tmp := e;
      i := i + 1;
    }
    FirstAfterIs(events, t, i);
    r := tmp.score >= 3;
  }

  /** On a date-sorted list, the event consulted is the last one dated on or before `t`. */
  lemma EventDecisionOnSorted(events: seq<ChangeEvent>, t: Date)
    requires SortedBy(events, EventKey) && events != []
    ensures var k := FirstAfter(events, t);
            (forall i :: k <= i < |events| ==> Before(t, events[i].date))
            && (k > 0 ==> forall i :: 0 <= i < k ==> NotAfter(events[i].date, events[k - 1].date))
  {
    var k := FirstAfter(events, t);
    forall i | k <= i < |events|
      ensures Before(t, events[i].date)
    {
      assert EventKey(events[k]) <= EventKey(events[i]);
    }
    if k > 0 {
      forall i | 0 <= i < k
        ensures NotAfter(events[i].date, events[k - 1].date)
      {
        if i < k - 1 {
          assert EventKey(events[i]) <= EventKey(events[k - 1]);
        }
      }
    }
  }

  // ---------------------------------------------------------------------
  // The timeline
  // ---------------------------------------------------------------------

  /** The events of one disease's episodes, one per episode at its start date. */
  function EpisodeEvents(episodes: seq<Diagnosis>, score: Date -> int): (r: seq<ChangeEvent>)
    ensures |r| == |episodes|
    ensures forall i :: 0 <= i < |r| ==> r[i] == ChangeEvent(episodes[i].start, score(episodes[i].start))
  {
    if episodes == [] then []
    else [ChangeEvent(episodes[0].start, score(episodes[0].start))] + EpisodeEvents(episodes[1..], score)
  }

  /** The number of episodes over the diseases of `order`. */
  function EpisodeCount(lists: DiagnosisLists, order: seq<DiseaseId>): nat
  {
    if order == [] then 0
    else (if order[0] in lists then |lists[order[0]]| else 0) + EpisodeCount(lists, order[1..])
  }

  /** The diagnosis events, disease by disease in `order` (the dict's insertion order). */
  function DiagnosisEvents(lists: DiagnosisLists, order: seq<DiseaseId>, score: Date -> int): (r: seq<ChangeEvent>)
    ensures |r| == EpisodeCount(lists, order)
  {
    if order == [] then []
    else (if order[0] in lists then EpisodeEvents(lists[order[0]], score) else [])
         + DiagnosisEvents(lists, order[1..], score)
  }

  /** Adding a disease at the end of `order` appends its episodes' events. */
  lemma {:induction false} DiagnosisEventsSnoc(lists: DiagnosisLists, order: seq<DiseaseId>, id: DiseaseId, score: Date -> int)
    ensures DiagnosisEvents(lists, order + [id], score)
            == DiagnosisEvents(lists, order, score) + (if id in lists then EpisodeEvents(lists[id], score) else [])
  {
    if order != [] {
      assert (order + [id])[1..] == order[1..] + [id];
      DiagnosisEventsSnoc(lists, order[1..], id, score);
    }
  }

  /** The inner loop of `find_chadsvasc_changes`: one event per episode of one list, in its order. */
  method CollectEpisodeEvents(ds: seq<Diagnosis>, score: Date -> int) returns (events: seq<ChangeEvent>)
    ensures events == EpisodeEvents(ds, score)
  {
    events := [];
    var j := 0;
    while j < |ds|
      invariant 0 <= j <= |ds|
      invariant events == EpisodeEvents(ds[..j], score)
    {
      var date := ds[j].start;
      events := events + [ChangeEvent(date, score(date))];
      assert ds[..j + 1] == ds[..j] + [ds[j]];
      j := j + 1;
    }
    assert ds[..j] == ds;
  }

  /**
   * The loop of `find_chadsvasc_changes` over the diagnosis lists in dict
   * order, one event per episode at its start date.
   */
  method CollectDiagnosisEvents(lists: DiagnosisLists, order: seq<DiseaseId>, score: Date -> int) returns (events: seq<ChangeEvent>)
    requires forall i :: 0 <= i < |order| ==> order[i] in lists
    ensures events == DiagnosisEvents(lists, order, score)
  {
    events := [];
    var i := 0;
    while i < |order|
      invariant 0 <= i <= |order|
      invariant events == DiagnosisEvents(lists, order[..i], score)
    {
      var id := order[i];
      var episodes := CollectEpisodeEvents(lists[id], score);
      events := events + episodes;
      DiagnosisEventsSnoc(lists, order[..i], id, score);
      assert order[..i + 1] == order[..i] + [id];
      i := i + 1;
    }
    assert order[..i] == order;
  }

  /**
   * The unsorted list: the birth event with score 0, one event per
   * diagnosis, and the events on the two age thresholds.
   */
  function RawChanges(lists: DiagnosisLists, order: seq<DiseaseId>, birth: Date, score: Date -> int, at65: Date, at75: Date): seq<ChangeEvent>
  {
    [ChangeEvent(birth, 0)] + DiagnosisEvents(lists, order, score) + [ChangeEvent(at65, score(at65)), ChangeEvent(at75, score(at75))]
  }

  /** The patient's score as a function of the date. */
  function ScoreOf(groups: ScoreGroups, lists: DiagnosisLists, birth: Date, sex: string): Date -> int
  {
    (t: Date) => ScoreWith(groups, lists, birth, sex, t)
  }

  /** `find_chadsvasc_changes` as written: the thresholds are `birth + relativedelta(years=65/75)`. */
  function AsWrittenChanges(lists: DiagnosisLists, order: seq<DiseaseId>, birth: Date, sex: string): (r: seq<ChangeEvent>)
    ensures |r| == 3 + EpisodeCount(lists, order) && SortedBy(r, EventKey)
    ensures multiset(r) == multiset(RawChanges(lists, order, birth, ScoreOf(Tables, lists, birth, sex), AddYears(birth, 65), AddYears(birth, 75)))
    ensures StartsFromBirth(lists, birth) ==> r[0] == ChangeEvent(birth, 0)
  {
    AddYearsAdvances(birth, 65);
    AddYearsAdvances(birth, 75);
    TimelineFacts(lists, order, birth, ScoreOf(Tables, lists, birth, sex), AddYears(birth, 65), AddYears(birth, 75));
    SortByKey(RawChanges(lists, order, birth, ScoreOf(Tables, lists, birth, sex), AddYears(birth, 65), AddYears(birth, 75)), EventKey)
  }

  /**
   * The first day on which the age is `n`: `birth + n years`, or the day
   * after it when a 29 February birthday was clamped to 28 February.
   */
  function AgeThreshold(birth: Date, n: nat): (r: Date)
    ensures NotAfter(AddYears(birth, n), r)
  {
    var d := AddYears(birth, n);
    if d.day == birth.day then d else NextDay(d)
  }

  /** The corrected timeline, with the thresholds on the days the age really changes. */
  function Changes(lists: DiagnosisLists, order: seq<DiseaseId>, birth: Date, sex: string): (r: seq<ChangeEvent>)
    ensures |r| == 3 + EpisodeCount(lists, order) && SortedBy(r, EventKey)
    ensures multiset(r) == multiset(RawChanges(lists, order, birth, ScoreOf(Tables, lists, birth, sex), AgeThreshold(birth, 65), AgeThreshold(birth, 75)))
    ensures StartsFromBirth(lists, birth) ==> r[0] == ChangeEvent(birth, 0)
  {
    AddYearsAdvances(birth, 65);
    AddYearsAdvances(birth, 75);
    TimelineFacts(lists, order, birth, ScoreOf(Tables, lists, birth, sex), AgeThreshold(birth, 65), AgeThreshold(birth, 75));
    SortByKey(RawChanges(lists, order, birth, ScoreOf(Tables, lists, birth, sex), AgeThreshold(birth, 65), AgeThreshold(birth, 75)), EventKey)
  }

  // ---------------------------------------------------------------------
  // What the timeline holds
  // ---------------------------------------------------------------------

  /** Every recorded episode starts on or after the birth date. */
  predicate StartsFromBirth(lists: DiagnosisLists, birth: Date)
  {
    forall id, i :: id in lists && 0 <= i < |lists[id]| ==> NotAfter(birth, lists[id][i].start)
  }

  /** `order` lists every recorded disease. */
  predicate Enumerates(lists: DiagnosisLists, order: seq<DiseaseId>)
  {
    forall id :: id in lists ==> id in order
  }

  /** At date `d`, the age is at least `n` exactly when `d` is on or after `at`. */
  predicate AgeThresholdAt(birth: Date, n: int, at: Date, d: Date)
  {
    CalculateAge(birth, d) >= n <==> NotAfter(at, d)
  }

  /** The day the age reaches `n`: before it the age is below `n`, from it on it is at least `n`. */
  ghost predicate IsAgeThreshold(birth: Date, n: int, at: Date)
  {
    forall t: Date :: AgeThresholdAt(birth, n, at, t)
  }

  lemma {:induction false} DiagnosisEventsMembers(lists: DiagnosisLists, order: seq<DiseaseId>, birth: Date, score: Date -> int)
    requires StartsFromBirth(lists, birth)
    ensures forall e :: e in DiagnosisEvents(lists, order, score) ==> e.score == score(e.date) && NotAfter(birth, e.date)
    ensures forall id, i :: id in order && id in lists && 0 <= i < |lists[id]| ==>
              ChangeEvent(lists[id][i].start, score(lists[id][i].start)) in DiagnosisEvents(lists, order, score)
  {
    if order != [] {
      DiagnosisEventsMembers(lists, order[1..], birth, score);
      var here := if order[0] in lists then EpisodeEvents(lists[order[0]], score) else [];
      assert DiagnosisEvents(lists, order, score) == here + DiagnosisEvents(lists, order[1..], score);
      forall id, i | id in order && id in lists && 0 <= i < |lists[id]|
        ensures ChangeEvent(lists[id][i].start, score(lists[id][i].start)) in DiagnosisEvents(lists, order, score)
      {
        if id == order[0] {
          assert here[i] == ChangeEvent(lists[id][i].start, score(lists[id][i].start));
        } else {
          assert id in order[1..];
        }
      }
    }
  }

  /** Group presence depends only on which diseases are present. */
  lemma GroupPresenceFollows(lists: DiagnosisLists, group: seq<Disease>, t1: Date, t2: Date)
    requires forall id :: HasDisease(lists, id, t1, true) <==> HasDisease(lists, id, t2, true)
    ensures GroupPresent(lists, group, t1) == GroupPresent(lists, group, t2)
  {
    if GroupPresent(lists, group, t1) {
      var j :| 0 <= j < |group| && HasDisease(lists, group[j].Id(), t1, true);
      assert HasDisease(lists, group[j].Id(), t2, true);
    }
    if GroupPresent(lists, group, t2) {
      var j :| 0 <= j < |group| && HasDisease(lists, group[j].Id(), t2, true);
      assert HasDisease(lists, group[j].Id(), t1, true);
    }
  }

  /** The score is the same at two dates when no event (diagnosis start or age threshold) lies between them. */
  lemma ScoreSettled(groups: ScoreGroups, lists: DiagnosisLists, birth: Date, sex: string, t1: Date, t2: Date)
    requires NotAfter(t1, t2)
    requires forall id, i :: id in lists && 0 <= i < |lists[id]| && NotAfter(lists[id][i].start, t2) ==> NotAfter(lists[id][i].start, t1)
    requires CalculateAge(birth, t2) >= 65 ==> CalculateAge(birth, t1) >= 65
    requires CalculateAge(birth, t2) >= 75 ==> CalculateAge(birth, t1) >= 75
    ensures ScoreWith(groups, lists, birth, sex, t1) == ScoreWith(groups, lists, birth, sex, t2)
  {
    AgeIsMonotone(birth, t1, t2);
    forall id
      ensures HasDisease(lists, id, t1, true) <==> HasDisease(lists, id, t2, true)
    {
      if HasDisease(lists, id, t2, true) {
        var i :| 0 <= i < |lists[id]| && NotAfter(lists[id][i].start, t2);
        assert NotAfter(lists[id][i].start, t1);
      }
      if HasDisease(lists, id, t1, true) {
        ChronicPresenceIsMonotone(lists, id, t1, t2);
      }
    }
    GroupPresenceFollows(lists, groups.heartFailure, t1, t2);
    GroupPresenceFollows(lists, groups.hypertension, t1, t2);
    GroupPresenceFollows(lists, groups.diabetes, t1, t2);
    GroupPresenceFollows(lists, groups.stroke, t1, t2);
    GroupPresenceFollows(lists, groups.vascular, t1, t2);
  }

  /** Before any diagnosis starts and before 65, the score is at most 1 (the sex point). */
  lemma ScoreBeforeEvents(groups: ScoreGroups, lists: DiagnosisLists, birth: Date, sex: string, t: Date)
    requires forall id, i :: id in lists && 0 <= i < |lists[id]| ==> Before(t, lists[id][i].start)
    requires CalculateAge(birth, t) < 65
    ensures ScoreWith(groups, lists, birth, sex, t) <= 1
  {
    assert forall id :: !HasDisease(lists, id, t, true);
    forall group: seq<Disease>
      ensures !GroupPresent(lists, group, t)
    {
    }
  }

  /** Every event is dated on or after `from`. */
  predicate AllFrom(from: Date, events: seq<ChangeEvent>)
  {
    forall i :: 0 <= i < |events| ==> NotAfter(from, events[i].date)
  }

  /** Every diagnosis event is dated on or after the birth. */
  lemma DiagnosisEventsAfterBirth(lists: DiagnosisLists, order: seq<DiseaseId>, birth: Date, score: Date -> int)
    requires StartsFromBirth(lists, birth)
    ensures AllFrom(birth, DiagnosisEvents(lists, order, score))
  {
    var diag := DiagnosisEvents(lists, order, score);
    DiagnosisEventsMembers(lists, order, birth, score);
    forall i | 0 <= i < |diag|
      ensures NotAfter(birth, diag[i].date)
    {
      assert diag[i] in diag;
    }
  }

  /** A list that starts with an event no later than any of the others has it first in date order. */
  lemma FirstIsEarliest(first: ChangeEvent, middle: seq<ChangeEvent>, e65: ChangeEvent, e75: ChangeEvent)
    requires AllFrom(first.date, middle)
    requires NotAfter(first.date, e65.date) && NotAfter(first.date, e75.date)
    ensures var raw := [first] + middle + [e65, e75];
            forall i :: 0 <= i < |raw| ==> EventKey(raw[0]) <= EventKey(raw[i])
  {
    var raw := [first] + middle + [e65, e75];
    forall i | 0 <= i < |raw|
      ensures NotAfter(first.date, raw[i].date)
    {
      if 1 <= i <= |middle| {
        assert raw[i] == middle[i - 1];
      }
    }
  }

  /** Every event of the unsorted list is dated on or after the birth event, which comes first. */
  lemma RawChangesFromBirth(lists: DiagnosisLists, order: seq<DiseaseId>, birth: Date, score: Date -> int, at65: Date, at75: Date)
    requires StartsFromBirth(lists, birth) && NotAfter(birth, at65) && NotAfter(birth, at75)
    ensures var raw := RawChanges(lists, order, birth, score, at65, at75);
            |raw| == 3 + EpisodeCount(lists, order)
            && raw[0] == ChangeEvent(birth, 0)
            && forall i :: 0 <= i < |raw| ==> EventKey(raw[0]) <= EventKey(raw[i])
  {
    DiagnosisEventsAfterBirth(lists, order, birth, score);
    FirstIsEarliest(ChangeEvent(birth, 0), DiagnosisEvents(lists, order, score), ChangeEvent(at65, score(at65)), ChangeEvent(at75, score(at75)));
  }

  /**
   * The timeline holds 3 + (number of diagnoses) events, sorted by date, and
   * begins with the birth event; after it come exactly the other events of
   * the unsorted list.
   */
  lemma ChangesShape(lists: DiagnosisLists, order: seq<DiseaseId>, birth: Date, score: Date -> int, at65: Date, at75: Date)
    requires StartsFromBirth(lists, birth) && NotAfter(birth, at65) && NotAfter(birth, at75)
    ensures var raw := RawChanges(lists, order, birth, score, at65, at75);
            var s := SortByKey(raw, EventKey);
            |s| == 3 + EpisodeCount(lists, order)
            && SortedBy(s, EventKey)
            && s[0] == ChangeEvent(birth, 0)
            && (forall j :: 1 <= j < |s| ==> s[j] in raw[1..])
            && (forall x :: x in raw[1..] ==> exists j :: 1 <= j < |s| && s[j] == x)
  {
    var raw := RawChanges(lists, order, birth, score, at65, at75);
    RawChangesFromBirth(lists, order, birth, score, at65, at75);
    SortByKeyProperties(raw, EventKey);
    SortByKeyKeepsLeastHead(raw, EventKey);
    SameTail(SortByKey(raw, EventKey), raw);
  }

  /**
   * `sorted(changes)` on the unsorted list of `find_chadsvasc_changes`, for
   * any two threshold dates not before the birth: 3 + (number of diagnoses)
   * events, sorted by date, a rearrangement of the unsorted list, and, when
   * no diagnosis predates birth, the birth event with score 0 first.
   */
  lemma TimelineFacts(lists: DiagnosisLists, order: seq<DiseaseId>, birth: Date, score: Date -> int, at65: Date, at75: Date)
    requires NotAfter(birth, at65) && NotAfter(birth, at75)
    ensures var raw := RawChanges(lists, order, birth, score, at65, at75);
            var s := SortByKey(raw, EventKey);
            |s| == 3 + EpisodeCount(lists, order) && SortedBy(s, EventKey) && multiset(s) == multiset(raw)
            && (StartsFromBirth(lists, birth) ==> s[0] == ChangeEvent(birth, 0))
  {
    var raw := RawChanges(lists, order, birth, score, at65, at75);
    SortByKeyProperties(raw, EventKey);
    if StartsFromBirth(lists, birth) {
      ChangesShape(lists, order, birth, score, at65, at75);
    }
  }

  /** Some event after the birth event falls on `d`. */
  predicate Marked(s: seq<ChangeEvent>, d: Date)
  {
    exists j :: 1 <= j < |s| && s[j].date == d
  }

  /** Every diagnosis start has an event after the birth event. */
  predicate StartsMarked(lists: DiagnosisLists, s: seq<ChangeEvent>)
  {
    forall id, i :: id in lists && 0 <= i < |lists[id]| ==> Marked(s, lists[id][i].start)
  }

  /** After the birth event, every event of the sorted timeline carries the score at its date. */
  lemma ChangesScored(lists: DiagnosisLists, order: seq<DiseaseId>, birth: Date, score: Date -> int, at65: Date, at75: Date)
    requires StartsFromBirth(lists, birth) && Enumerates(lists, order)
    requires NotAfter(birth, at65) && NotAfter(birth, at75)
    ensures var s := SortByKey(RawChanges(lists, order, birth, score, at65, at75), EventKey);
            forall j :: 1 <= j < |s| ==> s[j].score == score(s[j].date)
  {
    var raw := RawChanges(lists, order, birth, score, at65, at75);
    var s := SortByKey(raw, EventKey);
    var diag := DiagnosisEvents(lists, order, score);
    var e65 := ChangeEvent(at65, score(at65));
    var e75 := ChangeEvent(at75, score(at75));
    ChangesShape(lists, order, birth, score, at65, at75);
    DiagnosisEventsMembers(lists, order, birth, score);
    assert raw[1..] == diag + [e65, e75];
    forall j | 1 <= j < |s|
      ensures s[j].score == score(s[j].date)
    {
      assert s[j] in diag + [e65, e75];
    }
  }

  /**
   * Where the events of the sorted timeline come from: after the birth
   * event, every event carries the score at its date, and there is an event
   * on each threshold date and on each diagnosis start.
   */
  lemma ChangesContents(lists: DiagnosisLists, order: seq<DiseaseId>, birth: Date, score: Date -> int, at65: Date, at75: Date)
    requires StartsFromBirth(lists, birth) && Enumerates(lists, order)
    requires NotAfter(birth, at65) && NotAfter(birth, at75)
    ensures var s := SortByKey(RawChanges(lists, order, birth, score, at65, at75), EventKey);
            (forall j :: 1 <= j < |s| ==> s[j].score == score(s[j].date))
            && Marked(s, at65) && Marked(s, at75) && StartsMarked(lists, s)
  {
    var raw := RawChanges(lists, order, birth, score, at65, at75);
    var s := SortByKey(raw, EventKey);
    var diag := DiagnosisEvents(lists, order, score);
    var e65 := ChangeEvent(at65, score(at65));
    var e75 := ChangeEvent(at75, score(at75));
    ChangesScored(lists, order, birth, score, at65, at75);
    ChangesShape(lists, order, birth, score, at65, at75);
    DiagnosisEventsMembers(lists, order, birth, score);
    assert raw[1..] == diag + [e65, e75];
    assert e65 in raw[1..] && e75 in raw[1..];
    forall id, i | id in lists && 0 <= i < |lists[id]|
      ensures Marked(s, lists[id][i].start)
    {
      var e := ChangeEvent(lists[id][i].start, score(lists[id][i].start));
      assert e in raw[1..];
    }
  }

  /**
   * Any date-sorted timeline that starts with the birth event and has, after
   * it, events carrying the score at their dates on every diagnosis start
   * and on the two age thresholds, answers the event decision as the score
   * decision does.
   */
  lemma DecisionFromTimeline(groups: ScoreGroups, lists: DiagnosisLists, birth: Date, sex: string,
                             at65: Date, at75: Date, s: seq<ChangeEvent>, t: Date)
    requires IsAgeThreshold(birth, 65, at65) && IsAgeThreshold(birth, 75, at75)
    requires SortedBy(s, EventKey) && |s| > 0 && s[0] == ChangeEvent(birth, 0)
    requires forall j :: 1 <= j < |s| ==> s[j].score == ScoreWith(groups, lists, birth, sex, s[j].date)
    requires Marked(s, at65)
    requires Marked(s, at75)
    requires StartsMarked(lists, s)
    ensures EventDecision(s, t) == (ScoreWith(groups, lists, birth, sex, t) >= 3)
  {
    assert AgeThresholdAt(birth, 65, at65, t) && AgeThresholdAt(birth, 75, at75, t);
    if FirstAfter(s, t) <= 1 {
      DecisionWhenQuiet(groups, lists, birth, sex, at65, s, t);
    } else {
      var last := FirstAfter(s, t) - 1;
      assert AgeThresholdAt(birth, 65, at65, s[last].date) && AgeThresholdAt(birth, 75, at75, s[last].date);
      DecisionAtEvent(s, t, last);
      LatestCovers(lists, s, t, last, at65, at75);
      DecisionWhenSettled(groups, lists, birth, sex, at65, at75, s, t, last);
    }
  }

  /** The decision when no event after the birth event is on or before `t`: false, as the score is at most 1. */
  lemma DecisionWhenQuiet(groups: ScoreGroups, lists: DiagnosisLists, birth: Date, sex: string,
                          at65: Date, s: seq<ChangeEvent>, t: Date)
    requires AgeThresholdAt(birth, 65, at65, t)
    requires SortedBy(s, EventKey) && |s| > 0 && s[0] == ChangeEvent(birth, 0) && FirstAfter(s, t) <= 1
    requires Marked(s, at65) && StartsMarked(lists, s)
    ensures EventDecision(s, t) == (ScoreWith(groups, lists, birth, sex, t) >= 3)
  {
    DecisionBeforeEvents(s, t);
    QuietUntilEvent(groups, lists, birth, sex, at65, s, t);
  }

  /** The decision when some later event is on or before `t`: the latest such event carries the score at `t`. */
  lemma DecisionWhenSettled(groups: ScoreGroups, lists: DiagnosisLists, birth: Date, sex: string,
                            at65: Date, at75: Date, s: seq<ChangeEvent>, t: Date, last: nat)
    requires 1 <= last < |s| && NotAfter(s[last].date, t) && EventDecision(s, t) == (s[last].score >= 3)
    requires s[last].score == ScoreWith(groups, lists, birth, sex, s[last].date)
    requires AgeThresholdAt(birth, 65, at65, t) && AgeThresholdAt(birth, 75, at75, t)
    requires AgeThresholdAt(birth, 65, at65, s[last].date) && AgeThresholdAt(birth, 75, at75, s[last].date)
    requires (NotAfter(at65, t) ==> NotAfter(at65, s[last].date)) && (NotAfter(at75, t) ==> NotAfter(at75, s[last].date))
    requires StartsSettled(lists, t, s[last].date)
    ensures EventDecision(s, t) == (ScoreWith(groups, lists, birth, sex, t) >= 3)
  {
    SettledSinceEvent(groups, lists, birth, sex, at65, at75, s[last].date, t);
  }

  /** When the scan stops at or before the second event, the birth event is consulted and all later events are after `t`. */
  lemma DecisionBeforeEvents(s: seq<ChangeEvent>, t: Date)
    requires SortedBy(s, EventKey) && |s| > 0 && FirstAfter(s, t) <= 1
    ensures EventDecision(s, t) == (s[0].score >= 3)
    ensures forall j :: 1 <= j < |s| ==> Before(t, s[j].date)
  {
    EventDecisionOnSorted(s, t);
  }

  /** Event `last` is after the birth event, on or before `t`, and no later than any other such event. */
  predicate LatestBy(s: seq<ChangeEvent>, t: Date, last: nat)
  {
    1 <= last < |s| && NotAfter(s[last].date, t)
    && forall j :: 1 <= j < |s| && NotAfter(s[j].date, t) ==> NotAfter(s[j].date, s[last].date)
  }

  /** When the scan passes the second event, the event consulted is the latest one on or before `t`. */
  lemma DecisionAtEvent(s: seq<ChangeEvent>, t: Date, last: nat)
    requires SortedBy(s, EventKey) && FirstAfter(s, t) >= 2 && last == FirstAfter(s, t) - 1
    ensures EventDecision(s, t) == (s[last].score >= 3)
    ensures LatestBy(s, t, last)
  {
    EventDecisionOnSorted(s, t);
    forall j | 1 <= j < |s| && NotAfter(s[j].date, t)
      ensures NotAfter(s[j].date, s[last].date)
    {
      assert j <= last;
    }
  }

  /** When every event after the birth event is after `t`, the score at `t` is at most 1. */
  lemma QuietUntilEvent(groups: ScoreGroups, lists: DiagnosisLists, birth: Date, sex: string,
                        at65: Date, s: seq<ChangeEvent>, t: Date)
    requires AgeThresholdAt(birth, 65, at65, t)
    requires forall j :: 1 <= j < |s| ==> Before(t, s[j].date)
    requires Marked(s, at65)
    requires StartsMarked(lists, s)
    ensures ScoreWith(groups, lists, birth, sex, t) <= 1
  {
    var j65 :| 1 <= j65 < |s| && s[j65].date == at65;
    forall id, i | id in lists && 0 <= i < |lists[id]|
      ensures Before(t, lists[id][i].start)
    {
      var j :| 1 <= j < |s| && s[j].date == lists[id][i].start;
    }
    ScoreBeforeEvents(groups, lists, birth, sex, t);
  }

  /** Every diagnosis start on or before `t` is on or before `e`. */
  predicate StartsSettled(lists: DiagnosisLists, t: Date, e: Date)
  {
    forall id, i :: id in lists && 0 <= i < |lists[id]| && NotAfter(lists[id][i].start, t) ==> NotAfter(lists[id][i].start, e)
  }

  /**
   * The latest event on or before `t` is no earlier than any threshold date
   * or diagnosis start on or before `t`, since each of those has an event.
   */
  lemma LatestCovers(lists: DiagnosisLists, s: seq<ChangeEvent>, t: Date, last: nat, at65: Date, at75: Date)
    requires LatestBy(s, t, last) && Marked(s, at65) && Marked(s, at75) && StartsMarked(lists, s)
    ensures NotAfter(at65, t) ==> NotAfter(at65, s[last].date)
    ensures NotAfter(at75, t) ==> NotAfter(at75, s[last].date)
    ensures StartsSettled(lists, t, s[last].date)
  {
    var j65 :| 1 <= j65 < |s| && s[j65].date == at65;
    var j75 :| 1 <= j75 < |s| && s[j75].date == at75;
    forall id, i | id in lists && 0 <= i < |lists[id]| && NotAfter(lists[id][i].start, t)
      ensures NotAfter(lists[id][i].start, s[last].date)
    {
      var j :| 1 <= j < |s| && s[j].date == lists[id][i].start;
    }
  }

  /** Nothing changes the score between event date `e` and `t` when no threshold or diagnosis start lies in between. */
  lemma SettledSinceEvent(groups: ScoreGroups, lists: DiagnosisLists, birth: Date, sex: string,
                          at65: Date, at75: Date, e: Date, t: Date)
    requires NotAfter(e, t)
    requires AgeThresholdAt(birth, 65, at65, t) && AgeThresholdAt(birth, 75, at75, t)
    requires AgeThresholdAt(birth, 65, at65, e) && AgeThresholdAt(birth, 75, at75, e)
    requires (NotAfter(at65, t) ==> NotAfter(at65, e)) && (NotAfter(at75, t) ==> NotAfter(at75, e))
    requires StartsSettled(lists, t, e)
    ensures ScoreWith(groups, lists, birth, sex, e) == ScoreWith(groups, lists, birth, sex, t)
  {
    ScoreSettled(groups, lists, birth, sex, e, t);
  }

  /**
   * The agreement theorem: when every diagnosis starts on or after the
   * birth date, `order` lists every recorded disease and the two threshold
   * dates are the days the age reaches 65 and 75, the event decision equals
   * the score decision at every date.
   */
  lemma EventDecisionAgrees(groups: ScoreGroups, lists: DiagnosisLists, order: seq<DiseaseId>, birth: Date, sex: string,
                            at65: Date, at75: Date, t: Date)
    requires StartsFromBirth(lists, birth) && Enumerates(lists, order)
    requires IsAgeThreshold(birth, 65, at65) && IsAgeThreshold(birth, 75, at75)
    ensures EventDecision(SortByKey(RawChanges(lists, order, birth, ScoreOf(groups, lists, birth, sex), at65, at75), EventKey), t)
            == (ScoreWith(groups, lists, birth, sex, t) >= 3)
  {
    var score := ScoreOf(groups, lists, birth, sex);
    var s := SortByKey(RawChanges(lists, order, birth, score, at65, at75), EventKey);
    assert CalculateAge(birth, birth) < 65;
    assert AgeThresholdAt(birth, 65, at65, birth) && AgeThresholdAt(birth, 75, at75, birth);
    ChangesShape(lists, order, birth, score, at65, at75);
    ChangesContents(lists, order, birth, score, at65, at75);
    DecisionFromTimeline(groups, lists, birth, sex, at65, at75, s, t);
  }

  /** Outside 29 February, `birth + n years` is the day the age reaches `n`. */
  lemma AddYearsIsAgeThreshold(birth: Date, n: nat)
    requires !(birth.month == 2 && birth.day == 29)
    ensures IsAgeThreshold(birth, n, AddYears(birth, n))
  {
    forall t: Date
      ensures CalculateAge(birth, t) >= n <==> NotAfter(AddYears(birth, n), t)
    {
      AgeReachedOnAddYears(birth, t, n);
    }
  }

  /** The corrected threshold is the day the age reaches `n`, for every birth date. */
  lemma AgeThresholdIsAgeThreshold(birth: Date, n: nat)
    ensures IsAgeThreshold(birth, n, AgeThreshold(birth, n))
  {
    var at := AgeThreshold(birth, n);
    var d := AddYears(birth, n);
    forall t: Date
      ensures CalculateAge(birth, t) >= n <==> NotAfter(at, t)
    {
      AgeReachedOnBirthday(birth, t, n);
      BeforeIsCalendarOrder(t, at);
      if d.day != birth.day {
        assert d == CalendarDate(birth.year + n, 2, 28);
        assert at == CalendarDate(birth.year + n, 3, 1);
      }
    }
  }

  /** The as-written timeline agrees with the score for every birth date other than 29 February. */
  lemma AsWrittenAgreesOffLeapDay(lists: DiagnosisLists, order: seq<DiseaseId>, birth: Date, sex: string, t: Date)
    requires StartsFromBirth(lists, birth) && Enumerates(lists, order)
    requires !(birth.month == 2 && birth.day == 29)
    ensures EventDecision(AsWrittenChanges(lists, order, birth, sex), t) == (ChadsVasc(lists, birth, sex, t) >= 3)
  {
    AddYearsIsAgeThreshold(birth, 65);
    AddYearsIsAgeThreshold(birth, 75);
    EventDecisionAgrees(Tables, lists, order, birth, sex, AddYears(birth, 65), AddYears(birth, 75), t);
  }

  /** The corrected timeline agrees with the score for every birth date. */
  lemma ChangesAgree(lists: DiagnosisLists, order: seq<DiseaseId>, birth: Date, sex: string, t: Date)
    requires StartsFromBirth(lists, birth) && Enumerates(lists, order)
    ensures EventDecision(Changes(lists, order, birth, sex), t) == (ChadsVasc(lists, birth, sex, t) >= 3)
  {
    AgeThresholdIsAgeThreshold(birth, 65);
    AgeThresholdIsAgeThreshold(birth, 75);
    EventDecisionAgrees(Tables, lists, order, birth, sex, AgeThreshold(birth, 65), AgeThreshold(birth, 75), t);
  }

  /** Without diagnoses, the timeline is the birth event and the two threshold events. */
  lemma RawChangesWithoutDiagnoses(birth: Date, score: Date -> int, at65: Date, at75: Date)
    requires Before(birth, at65) && Before(at65, at75)
    ensures var raw := RawChanges(map[], [], birth, score, at65, at75);
            raw == [ChangeEvent(birth, 0), ChangeEvent(at65, score(at65)), ChangeEvent(at75, score(at75))]
            && SortByKey(raw, EventKey) == raw
  {
    var raw := RawChanges(map[], [], birth, score, at65, at75);
    assert raw == [ChangeEvent(birth, 0), ChangeEvent(at65, score(at65)), ChangeEvent(at75, score(at75))];
    SortByKeyOfSorted(raw, EventKey);
  }

  /** Without diagnoses, only age and sex count. */
  lemma ScoreWithoutDiagnoses(birth: Date, sex: string, t: Date)
    ensures ChadsVasc(map[], birth, sex, t) == AgePoints(CalculateAge(birth, t)) + Points(IsFemale(sex), 1)
  {
    assert forall group: seq<Disease> :: !GroupPresent(map[], group, t);
  }

  /** As written, her timeline ends with the event of 28 February 2075, at score 2. */
  lemma LeapDayBirthTimeline()
    ensures var s := AsWrittenChanges(map[], [], CalendarDate(2000, 2, 29), "v");
            |s| == 3 && s[2] == ChangeEvent(CalendarDate(2075, 2, 28), 2)
            && NotAfter(s[0].date, s[2].date) && NotAfter(s[1].date, s[2].date)
  {
    var birth: Date := CalendarDate(2000, 2, 29);
    var at65, at75 := AddYears(birth, 65), AddYears(birth, 75);
    assert at65 == CalendarDate(2065, 2, 28) && at75 == CalendarDate(2075, 2, 28);
    assert IsFemale("v");
    ScoreWithoutDiagnoses(birth, "v", at75);
    OrdIncreases(birth, at65);
    OrdIncreases(at65, at75);
    RawChangesWithoutDiagnoses(birth, ScoreOf(Tables, map[], birth, "v"), at65, at75);
  }

  /**
   * As written, a woman born on 29 February 2000 with no diagnoses gets her
   * 75-year event on 28 February 2075, when she is still 74 (score 2). On
   * 1 March 2075 she is 75 and scores 3, yet the event decision still reads
   * the score-2 event.
   */
  lemma LeapDayBirthDisagrees()
    ensures var birth := CalendarDate(2000, 2, 29);
            var t := CalendarDate(2075, 3, 1);
            ChadsVasc(map[], birth, "v", t) == 3
            && !EventDecision(AsWrittenChanges(map[], [], birth, "v"), t)
            && EventDecision(Changes(map[], [], birth, "v"), t)
  {
    var birth: Date := CalendarDate(2000, 2, 29);
    var t: Date := CalendarDate(2075, 3, 1);
    assert IsFemale("v");
    ScoreWithoutDiagnoses(birth, "v", t);
    LeapDayBirthTimeline();
    var s := AsWrittenChanges(map[], [], birth, "v");
    OrdIncreases(s[2].date, t);
    assert LastReached(s, t, 2);
    ChangesAgree(map[], [], birth, "v", t);
  }
}
