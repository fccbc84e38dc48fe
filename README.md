# CHA2DS2-VASc clinical-record engine, modelled in Dafny

This project models the core of a Python research code base that studies when patients with atrial fibrillation should get anticoagulants. It covers:

- **The record.** Diseases (specialism and code), diagnosis episodes and medication episodes. Episodes are ordered by start date.
- **The score tables.** The constant disease tables behind the CHA2DS2-VASc stroke-risk score.
- **The episode merger.** The read episodes of one disease are merged into maximal runs.
- **The patient record.** A `Patient` holds per-disease episode lists and answers presence, age and score queries. It keeps a precomputed timeline of the dates where its score changes, and decides whether anticoagulation is indicated, either from that timeline or from the score.
- **The anticoagulation policies.** A score threshold, a timeline lookup and a stroke window.
- **The cohort simulations.** They step month by month through a cohort, keep the eligible patients, split them into a learn set and a test set, and assemble feature vectors and labels.
- **The practitioner analysis.** It counts, per practitioner and per month bin, the diagnoses by score and whether a medication followed.
- **Small counters.** Disease frequencies, the score breakdown, confusion-matrix tallies, the feature-vector score and a disjoint dictionary merge.

Each module follows one source file. Pure code becomes functions with lemmas. Code that updates state becomes classes, or methods with loops, each proved against a specification function.

- **Dates** are proleptic Gregorian dates ordered by day number. dateutil's `relativedelta` is modelled with its day clamping.
- **Python's stable sort** is a stable insertion sort by an integer key.
- **A dictionary whose order matters** is a sequence of pairs in insertion order, or an order sequence beside a map.
- **Generators** are the sequence of the values they yield, and `None` where the generator raises.
- **Shuffles** are an input permutation.
- **Float rates** are exact fractions, and `round` rounds half to even.

The source files come from different revisions and disagree with each other. Where they do, the model follows the code that calls:

- `diagnosis.py:2` takes no practitioner, but the merger builds episodes with one. Here a diagnosis carries an optional practitioner, and `==` compares it too.
- `disease.py:2` takes no description, but `disease_groups.py` passes one. Here the description is metadata outside equality and hashing. `Disease.__repr__` is the `(spec, diag)` form of `disease.py:6-7`, not the description that `tests/test_disease.py:16` expects.
- `main.py:24` calls `add_medication`, which `patient.py` lacks. It is modelled as appending the medication to the list for its code.
- `patient.py:3` imports its score groups from a module that is not part of this model. The tables of `disease_groups.py` are used instead.
- `has_disease` defaults to `chronic=True` (`patient.py:34`). `tests/test_patient.py:64` expects the interval answer, so that expectation is stated with `chronic=False`.
- Several callers use patient queries that `patient.py` does not define: `is_alive`, `has_disease_group`, `days_since_diagnosis`, `days_since_last_diagnosis`, `has_medication_group`, `strokes` and `diagnoses.iter_diagnoses`. They are a record of functions fixed when the patient is created. Their results are inputs to every property, never invented.
- `event_based` (anticoagulant_decision.py:11-15) reads `patient.chads_vasc_changes`, and `prepare_data` calls `p.find_chads_vasc_changes()` (main.py:85). `patient.py` defines only `chadsvasc_changes` and `find_chadsvasc_changes` (patient.py:14, 100, 119), so as the files stand both callers raise `AttributeError`. The model takes them to mean `patient.py`'s attribute and method (`chadsvascChanges`, `FindChadsvascChanges`).
- In the simulation files, `should_have_AC(t, policy, kwargs)` calls the given policy: the score threshold 3, or `future_stroke`, which ignores the `months` argument it is given and always uses the window from a stroke to six months after it.

## Model

| member | source | states |
|---|---|---|
| AnticoagulantDecision.ChadsVascDecisionIsMonotone | anticoagulant_decision.py:4-7 | once the score threshold (score at least 3) decides for anticoagulation at one date it still does at every later date, whatever `max_value` is passed |
| AnticoagulantDecision.ChadsVascDecision | anticoagulant_decision.py:4-7 | true exactly when the patient's score at the timestamp is at least 3, whatever `max_value` is; so always for a woman of 75 or more |
| AnticoagulantDecision.InStrokeWindow | anticoagulant_decision.py:26 | the stroke day itself is in the window, and no day more than six calendar months after the stroke's month is |
| AnticoagulantDecision.EventBased | anticoagulant_decision.py:10-21 | the result is the decision of the last change event dated on or before the timestamp (the first event when none is), and false when the patient has no change events |
| AnticoagulantDecision.FutureStroke | anticoagulant_decision.py:24-27 | true exactly when some recorded stroke date `s` has `s <= t <= s + 6 months`; `months` plays no part |
| AnticoagulantDecision.StrokeWindowBounds | anticoagulant_decision.py:26 | a stroke's window contains the stroke day and the day six calendar months later, and no day before the stroke or after those six months |
| Breakdown.BreakdownRow.constructor | breakdown.py:188-190 | a new row has no ages and a female count of 0 |
| Breakdown.BreakdownRow.Update | breakdown.py:192-195 | the age is appended to the row's ages and the female count goes up by one exactly for a female; never more females than ages |
| Breakdown.RowFemalesAtMostAges | breakdown.py:20-29 | a score row never counts more females than it has patients |
| Breakdown.RowsSizeSnoc | breakdown.py:24-29 | one more patient adds one to the rows below score `k` exactly when that patient is alive with a score below `k`, and nothing otherwise |
| Breakdown.RowsSizeEmpty | breakdown.py:19 | with no patients every row is empty |
| Breakdown.RowsCoverTheLiving | breakdown.py:19-29 | the ten rows together hold exactly the patients alive at the timestamp (every score lies in 0..9) |
| Breakdown.FemaleCount | breakdown.py:18-23 | the female count never exceeds the number of patients |
| Breakdown.AliveCountBound | breakdown.py:20-26 | never more living patients than patients |
| Breakdown.FilledRowsSize | breakdown.py:32-35 | rows 0..k-1 that are all non-empty hold at least `k` ages between them |
| Breakdown.FilledRowsNeedTenPatients | breakdown.py:35-38 | when every score 0..9 has a living patient (the only way past the `% Female` column), at least ten patients are alive, so the division by the patient count cannot fail; `breakdown` raises exactly when some score row is empty |
| Breakdown.EmptyRows | breakdown.py:19 | ten fresh, pairwise distinct, empty rows |
| Breakdown.CountPatient | breakdown.py:20-29 | one loop iteration: the patient count grows by one, the female count counts the patient if female, dead patients are skipped, and the living patient's age lands in the row of their score |
| Breakdown.Breakdown | breakdown.py:14-29 | the patient count is the number of patients, the female count the number of females (dead ones included), and each row `s` holds the ages, in order, and the number of females of exactly the living patients scoring `s` |
| ConfusionMatrices.KindOf | learning/confusion_matrix.py:38-45 | a position is a true positive iff both labels are 1, a true negative iff both are 0, a false negative iff truth 1 and prediction 0, and a false positive in every other case (labels outside 0/1 included) |
| ConfusionMatrices.PopulationIsLength | learning/confusion_matrix.py:14 | every position is counted in exactly one cell: the four counts add up to the number of positions (used at lines 33-47) |
| ConfusionMatrices.Matrix | learning/confusion_matrix.py:33-47 | the four counts of the whole input add up to its length |
| ConfusionMatrices.AgreementsAreTrueCounts | learning/confusion_matrix.py:33-47 | with 0/1 labels, true positives plus true negatives are the positions where truth and prediction agree |
| ConfusionMatrices.PositivesAreTpPlusFn | learning/confusion_matrix.py:33-47 | with 0/1 predictions, true positives plus false negatives are the 1s among the true labels |
| ConfusionMatrices.CalculateMatrix | learning/confusion_matrix.py:33-47 | the loop returns the matrix of the whole input, and its counts add up to the input length |
| ConfusionMatrices.NewConfusionMatrix | learning/confusion_matrix.py:2-14 | fails exactly when the two label lists differ in length; otherwise keeps the inputs and name and stores the matrix and its population |
| ConfusionMatrices.MatrixFixture | tests/test_confusion_matrix.py:6-28 | the test's ten labels give `(t_p, f_n, f_p, t_n) == (3, 4, 2, 1)` |
| ChangeEvents.FirstAfter | patient.py:83-85 | the scan stops at the first event dated after `t`: every event before the stop index is on or before `t`, and the event at it, if any, is after `t` |
| ChangeEvents.FirstAfterIs | patient.py:83-85 | any index with those two properties is the stop index, so the stop index is unique |
| ChangeEvents.ScanEvents | patient.py:78-89 | the `tmp` loop returns the event decision: false for no events, otherwise whether the event before the stop index (the first event when the stop index is 0) scores at least 3 |
| ChangeEvents.EventDecision | anticoagulant_decision.py:10-21 | false with no events; when the first event is after `t`, that event's score decides; otherwise the score of the last event of the leading run of events dated on or before `t` decides (at least 3) |
| ChangeEvents.EventDecisionOnSorted | patient.py:83-89 | on a date-sorted list every event from the stop index on is after `t`, and the event consulted is the latest one on or before `t` |
| ChangeEvents.EpisodeEvents | patient.py:109-111 | one event per episode, in order, dated at the episode's start and carrying the score on that date |
| ChangeEvents.DiagnosisEvents | patient.py:108-111 | one event per recorded episode of the diseases listed |
| ChangeEvents.DiagnosisEventsSnoc | patient.py:108-111 | one more disease in the dictionary's order appends exactly that disease's episode events |
| ChangeEvents.CollectEpisodeEvents | patient.py:109-111 | the inner loop builds exactly the episode events of one disease's list |
| ChangeEvents.CollectDiagnosisEvents | patient.py:108-111 | the nested loops build exactly the diagnosis events, disease by disease in the dictionary's order |
| ChangeEvents.AgeThreshold | patient.py:113-117 | the corrected threshold date is never before `birth + n years` |
| ChangeEvents.DiagnosisEventsMembers | patient.py:108-111 | every diagnosis event carries the score of its own date and is not before the birth, and every recorded episode start has its event |
| ChangeEvents.GroupPresenceFollows | patient.py:58-62 | a disease group's presence depends only on which diseases are present |
| ChangeEvents.ScoreSettled | patient.py:56-75 | when no diagnosis starts and no 65th or 75th birthday falls between two dates, the score is the same on both |
| ChangeEvents.ScoreBeforeEvents | patient.py:56-75 | before every diagnosis start and before the age of 65, the score is at most 1 (the sex point) |
| ChangeEvents.DiagnosisEventsAfterBirth | patient.py:107-111 | every diagnosis event is dated on or after the birth |
| ChangeEvents.FirstIsEarliest | patient.py:107-119 | an event no later than all others is earliest in date order |
| ChangeEvents.RawChangesFromBirth | patient.py:107-117 | the unsorted list has three events more than the episodes, starts with the birth event of score 0, and no event precedes it |
| ChangeEvents.ChangesShape | patient.py:107-119 | after the stable sort by date the list has the same length, is sorted, still starts with the birth event, and its other events are exactly the other unsorted events |
| ChangeEvents.TimelineFacts | patient.py:100-119 | for any two threshold dates not before the birth, sorting the raw list gives three events more than the episodes, date-sorted, a rearrangement of the raw list, and starting with the birth event when no episode predates the birth |
| ChangeEvents.AsWrittenChanges | patient.py:100-119 | the timeline as written, with the age events on `birth + relativedelta(years=65/75)`: three events more than the episodes, date-sorted, a rearrangement of the raw list, and starting with the birth event when no episode predates the birth |
| ChangeEvents.Changes | patient.py:100-119 | the corrected timeline, with the age events on the first days the age is 65 and 75: the same length, order, contents and first event as the as-written one |
| ChangeEvents.ChangesScored | patient.py:107-119 | after sorting, every event but the birth event carries the score of its own date |
| ChangeEvents.LeapDayBirthTimeline | patient.py:113-117 | for a woman born 2000-02-29 with no diagnoses the as-written timeline has three events, the last on 2075-02-28 with score 2 and dated on or after the other two |
| ChangeEvents.ChangesContents | patient.py:107-119 | after sorting, every event but the birth event carries the score of its own date, and both age thresholds and every diagnosis start are marked by an event |
| ChangeEvents.DecisionFromTimeline | patient.py:78-93 | on any sorted timeline that starts at birth, marks the real 65th and 75th birthdays and every diagnosis start, and carries the true score at each event, the event decision equals the score decision (score at least 3) at every date |
| ChangeEvents.DecisionWhenQuiet | patient.py:78-93 | when no event after the birth event is on or before `t`, both decisions are false |
| ChangeEvents.DecisionWhenSettled | patient.py:78-93 | when the latest event on or before `t` has the score of its date and nothing happens between it and `t`, both decisions agree |
| ChangeEvents.DecisionBeforeEvents | patient.py:82-89 | when the scan stops by the second event, the birth event is consulted and every later event is after `t` |
| ChangeEvents.DecisionAtEvent | patient.py:82-89 | when the scan passes the second event, the event consulted is the latest one after birth that is on or before `t` |
| ChangeEvents.QuietUntilEvent | patient.py:56-75 | when every marked event is after `t`, the score at `t` is at most 1 |
| ChangeEvents.LatestCovers | patient.py:107-119 | every threshold and diagnosis start on or before `t` is on or before the latest event on or before `t` |
| ChangeEvents.SettledSinceEvent | patient.py:56-75 | with no threshold or diagnosis start between an event date and `t`, the score is the same on both |
| ChangeEvents.EventDecisionAgrees | patient.py:77-119 | with thresholds on the real 65th and 75th birthdays, the sorted timeline's event decision equals the score decision at every date |
| ChangeEvents.AddYearsIsAgeThreshold | patient.py:113-117 | for a birth date other than 29 February, `birth + n years` is the day the age reaches `n` |
| ChangeEvents.AgeThresholdIsAgeThreshold | patient.py:113-117 | the corrected threshold is the day the age reaches `n`, for every birth date |
| ChangeEvents.AsWrittenAgreesOffLeapDay | patient.py:77-119 | the timeline as written gives the score decision at every date, for every birth date other than 29 February |
| ChangeEvents.ChangesAgree | patient.py:77-119 | for diagnoses starting on or after the birth, the corrected timeline gives the score decision at every date, for every birth date, 29 February included |
| ChangeEvents.RawChangesWithoutDiagnoses | patient.py:107-119 | without diagnoses the timeline is the birth event and the two threshold events, already in date order |
| ChangeEvents.ScoreWithoutDiagnoses | patient.py:56-75 | without diagnoses only the age points and the sex point count |
| ChangeEvents.LeapDayBirthDisagrees | patient.py:113-117 | for a woman born on 29 February 2000 with no diagnoses, the score on 1 March 2075 is 3, yet the timeline as written decides against anticoagulation there and the corrected one decides for it |
| Dates.Later | csv_reader/diagnose_csv.py:56 | `max` of two dates is one of them and is on or after both |
| Dates.AddMonths | practitioner.py:14 | `relativedelta(months=k)` moves the month number on by exactly `k`; the day stays the same when the target month has it, and otherwise becomes the target month's last day |
| Dates.AddYears | patient.py:113-117 | `relativedelta(years=n)` keeps month and day and adds `n` to the year, except that 29 February becomes 28 February exactly when the target year is not a leap year |
| Dates.NextDay | csv_reader/diagnose_csv.py:52 | a one-day `timedelta` adds exactly one to the day number |
| Dates.BeforeIsCalendarOrder | csv_reader/diagnose_csv.py:52 | comparing day numbers is comparing dates by year, then month, then day, as Python's date comparison does, and equal day numbers mean equal dates |
| Dates.AddMonthsAdvances | practitioner.py:12-15 | a positive month step moves strictly forward |
| Dates.AddYearsAdvances | patient.py:113-117 | a year step never moves backward, and a positive one moves strictly forward |
| Dates.EndOfJanuaryPlusOneMonth | practitioner.py:14 | 31 January plus one month is 28 February |
| Dates.LeapDayPlusYears | patient.py:113-117 | 29 February plus 65 or 75 years is 28 February of that year |
| Diagnoses.LessIsStrictOrderOnStarts | diagnosis.py:10-11 | `<` is irreflexive, transitive and asymmetric, holds exactly when the start dates are in calendar order, and never holds between episodes starting on the same day |
| Diagnoses.EqualIsEquivalence | diagnosis.py:13-14 | `==` is reflexive, symmetric and transitive, and holds exactly when disease identity (specialism and code), both dates and the practitioner are equal |
| Diagnoses.Less | diagnosis.py:10-11 | `<` holds exactly when the first start date is earlier in calendar order, so never between equal starts |
| Diagnoses.Equal | diagnosis.py:13-14 | `==` holds exactly when the two diagnoses agree in every field once the diseases' descriptions are ignored |
| Diagnoses.DiagnosisFixture | tests/test_diagnosis.py:8-42 | the test's orderings hold, descriptions do not affect equality, and episodes with other dates or another disease differ |
| Diseases.Repr | disease.py:6-7 | the text is `(`, the specialism, `, `, the code and `)`, in that order and nothing else |
| Diseases.EqualIsIdentity | disease.py:9-10 | two diseases are equal exactly when specialism and code are, whatever their descriptions, and equality is an equivalence |
| Diseases.Equal | disease.py:9-10 | two diseases are equal exactly when their specialism and code are, whatever their descriptions |
| Diseases.EqualDiseasesHashEqually | disease.py:9-13 | equal diseases have equal hashes, for every string hash |
| Diseases.DiseaseFixture | tests/test_disease.py:14-22 | `(TEST1, 000)` is the text without a description; the description does not affect equality; another specialism or code does |
| Medications.Repr | medication.py:7-8 | the text is the code, a space, the ISO text of the start date, `~` and the ISO text of the end date, in that order and nothing else |
| Medications.LessIsStrictOrderOnStarts | medication.py:10-11 | `<` is a strict order that holds exactly when the start dates are in calendar order, ignoring code and end date |
| Medications.EqualIsStructural | medication.py:13-14 | `==` holds exactly when code and both dates are equal |
| Medications.Less | medication.py:10-11 | `<` holds exactly when the first start date is earlier in calendar order, so never between equal starts |
| Medications.Equal | medication.py:13-14 | `==` holds exactly when code, start and end are all equal |
| Medications.ReprExample | medication.py:7-8 | a concrete episode prints as `B00BB01 2010-06-01~2010-06-07` |
| Mergers.Merger | csv_reader/mergers.py:4-13 | fails exactly when a key of `b` is already a key of `a`; otherwise the result has the keys of both and each key's value from the map it came from |
| Mergers.MergeData | csv_reader/mergers.py:4-13 | the copy-then-insert loop gives exactly that merge, raising on the first clashing key |
| Mergers.MergerWithEmpty | csv_reader/mergers.py:4-13 | merging with an empty map on either side gives back the other map |
| Mergers.MergerIsSymmetric | csv_reader/mergers.py:4-13 | success does not depend on the order of the arguments, and neither does the merged map |
| DiseaseGroups.TableSizes | disease_groups.py:19-122 | the five score tables hold 10, 5, 9, 13 and 53 entries |
| DiseaseGroups.StrokeTableIsSGroup | disease_groups.py:124-127 | the stroke-outcome table is the S table itself, and atrial fibrillation is the two codes CAR 401 and INT 106 |
| DiseaseGroupsDisjoint.AtrialFibApartFromHeartFailureHypertension | disease_groups.py:19-38 | no atrial-fibrillation code is in the C or H table (used at line 127) |
| DiseaseGroupsDisjoint.AtrialFibApartFromDiabetes | disease_groups.py:40-50 | no atrial-fibrillation code is in the D table (used at line 127) |
| DiseaseGroupsDisjoint.AtrialFibApartFromStroke | disease_groups.py:52-66 | no atrial-fibrillation code is in the S table (used at line 127) |
| DiseaseGroupsDisjoint.AtrialFibApartFromCardiologyVascular | disease_groups.py:68-122 | no atrial-fibrillation code is among the cardiology entries of the V table (used at line 127) |
| DiseaseGroupsDisjoint.AtrialFibApartFromSurgeryVascular | disease_groups.py:68-122 | no atrial-fibrillation code is among the surgery entries of the V table (used at line 127) |
| DiseaseGroupsDisjoint.AtrialFibApartFromPhysiotherapyVascular | disease_groups.py:68-122 | no atrial-fibrillation code is among the physiotherapy entries of the V table (used at line 127) |
| DiseaseGroupsDisjoint.AtrialFibApartFromOtherVascular | disease_groups.py:68-122 | no atrial-fibrillation code is among the remaining specialisms' entries of the V table (used at line 127) |
| DiseaseGroupsDisjoint.ApartFromVascular | disease_groups.py:68-122 | a table apart from every specialism's part of the V table is apart from the whole V table |
| DiseaseGroupsDisjoint.AtrialFibNotScored | disease_groups.py:19-127 | neither atrial-fibrillation code appears in any of the five score tables: the cohort codes never add points |
| DiseaseGroupsDisjoint.HeartFailureApartFromHypertension | disease_groups.py:19-38 | no (specialism, code) pair is in both the C table and the H table |
| DiseaseGroupsDisjoint.HeartFailureApartFromDiabetes | disease_groups.py:19-50 | no (specialism, code) pair is in both the C table and the D table |
| DiseaseGroupsDisjoint.HeartFailureApartFromStroke | disease_groups.py:19-66 | no (specialism, code) pair is in both the C table and the S table |
| DiseaseGroupsDisjoint.HypertensionApartFromDiabetes | disease_groups.py:32-50 | no (specialism, code) pair is in both the H table and the D table |
| DiseaseGroupsDisjoint.HypertensionApartFromStroke | disease_groups.py:32-66 | no (specialism, code) pair is in both the H table and the S table |
| DiseaseGroupsDisjoint.DiabetesApartFromStroke | disease_groups.py:40-66 | no (specialism, code) pair is in both the D table and the S table |
| DiseaseGroupsDisjoint.HeartFailureApartFromAne | disease_groups.py:19-69 | no (specialism, code) pair of the C table is among the anaesthesiology entries of the V table |
| DiseaseGroupsDisjoint.HeartFailureApartFromCar | disease_groups.py:19-85 | no (specialism, code) pair of the C table is among the cardiology entries of the V table |
| DiseaseGroupsDisjoint.HeartFailureApartFromChi | disease_groups.py:19-97 | no (specialism, code) pair of the C table is among the surgery entries of the V table |
| DiseaseGroupsDisjoint.HeartFailureApartFromFys | disease_groups.py:19-110 | no (specialism, code) pair of the C table is among the physiotherapy entries of the V table |
| DiseaseGroupsDisjoint.HeartFailureApartFromGer | disease_groups.py:19-111 | no (specialism, code) pair of the C table is among the geriatrics entries of the V table |
| DiseaseGroupsDisjoint.HeartFailureApartFromInt | disease_groups.py:19-116 | no (specialism, code) pair of the C table is among the internal-medicine entries of the V table |
| DiseaseGroupsDisjoint.HeartFailureApartFromLon | disease_groups.py:19-117 | no (specialism, code) pair of the C table is among the pulmonology entries of the V table |
| DiseaseGroupsDisjoint.HeartFailureApartFromRev | disease_groups.py:19-121 | no (specialism, code) pair of the C table is among the rehabilitation entries of the V table |
| DiseaseGroupsDisjoint.HeartFailureApartFromVascular | disease_groups.py:19-122 | no (specialism, code) pair is in both the C table and the V table |
| DiseaseGroupsDisjoint.HypertensionApartFromAne | disease_groups.py:32-69 | no (specialism, code) pair of the H table is among the anaesthesiology entries of the V table |
| DiseaseGroupsDisjoint.HypertensionApartFromCar | disease_groups.py:32-85 | no (specialism, code) pair of the H table is among the cardiology entries of the V table |
| DiseaseGroupsDisjoint.HypertensionApartFromChi | disease_groups.py:32-97 | no (specialism, code) pair of the H table is among the surgery entries of the V table |
| DiseaseGroupsDisjoint.HypertensionApartFromFys | disease_groups.py:32-110 | no (specialism, code) pair of the H table is among the physiotherapy entries of the V table |
| DiseaseGroupsDisjoint.HypertensionApartFromGer | disease_groups.py:32-111 | no (specialism, code) pair of the H table is among the geriatrics entries of the V table |
| DiseaseGroupsDisjoint.HypertensionApartFromInt | disease_groups.py:32-116 | no (specialism, code) pair of the H table is among the internal-medicine entries of the V table |
| DiseaseGroupsDisjoint.HypertensionApartFromLon | disease_groups.py:32-117 | no (specialism, code) pair of the H table is among the pulmonology entries of the V table |
| DiseaseGroupsDisjoint.HypertensionApartFromRev | disease_groups.py:32-121 | no (specialism, code) pair of the H table is among the rehabilitation entries of the V table |
| DiseaseGroupsDisjoint.HypertensionApartFromVascular | disease_groups.py:32-122 | no (specialism, code) pair is in both the H table and the V table |
| DiseaseGroupsDisjoint.DiabetesApartFromAne | disease_groups.py:40-69 | no (specialism, code) pair of the D table is among the anaesthesiology entries of the V table |
| DiseaseGroupsDisjoint.DiabetesApartFromCar | disease_groups.py:40-85 | no (specialism, code) pair of the D table is among the cardiology entries of the V table |
| DiseaseGroupsDisjoint.DiabetesApartFromChi | disease_groups.py:40-97 | no (specialism, code) pair of the D table is among the surgery entries of the V table |
| DiseaseGroupsDisjoint.DiabetesApartFromFys | disease_groups.py:40-110 | no (specialism, code) pair of the D table is among the physiotherapy entries of the V table |
| DiseaseGroupsDisjoint.DiabetesApartFromGer | disease_groups.py:40-111 | no (specialism, code) pair of the D table is among the geriatrics entries of the V table |
| DiseaseGroupsDisjoint.DiabetesApartFromInt | disease_groups.py:40-116 | no (specialism, code) pair of the D table is among the internal-medicine entries of the V table |
| DiseaseGroupsDisjoint.DiabetesApartFromLon | disease_groups.py:40-117 | no (specialism, code) pair of the D table is among the pulmonology entries of the V table |
| DiseaseGroupsDisjoint.DiabetesApartFromRev | disease_groups.py:40-121 | no (specialism, code) pair of the D table is among the rehabilitation entries of the V table |
| DiseaseGroupsDisjoint.DiabetesApartFromVascular | disease_groups.py:40-122 | no (specialism, code) pair is in both the D table and the V table |
| DiseaseGroupsDisjoint.StrokeApartFromAne | disease_groups.py:52-69 | no (specialism, code) pair of the S table is among the anaesthesiology entries of the V table |
| DiseaseGroupsDisjoint.StrokeApartFromCar | disease_groups.py:52-85 | no (specialism, code) pair of the S table is among the cardiology entries of the V table |
| DiseaseGroupsDisjoint.StrokeApartFromChi | disease_groups.py:52-97 | no (specialism, code) pair of the S table is among the surgery entries of the V table |
| DiseaseGroupsDisjoint.StrokeApartFromFys | disease_groups.py:52-110 | no (specialism, code) pair of the S table is among the physiotherapy entries of the V table |
| DiseaseGroupsDisjoint.StrokeApartFromGer | disease_groups.py:52-111 | no (specialism, code) pair of the S table is among the geriatrics entries of the V table |
| DiseaseGroupsDisjoint.StrokeApartFromInt | disease_groups.py:52-116 | no (specialism, code) pair of the S table is among the internal-medicine entries of the V table |
| DiseaseGroupsDisjoint.StrokeApartFromLon | disease_groups.py:52-117 | no (specialism, code) pair of the S table is among the pulmonology entries of the V table |
| DiseaseGroupsDisjoint.StrokeApartFromRev | disease_groups.py:52-121 | no (specialism, code) pair of the S table is among the rehabilitation entries of the V table |
| DiseaseGroupsDisjoint.StrokeApartFromVascular | disease_groups.py:52-122 | no (specialism, code) pair is in both the S table and the V table |
| DiseaseGroupsDisjoint.ScoreTablesPairwiseApart | disease_groups.py:19-122 | no (specialism, code) pair is in two of the five score tables, so a disease earns points from one table at most |
| LearningTest.WeightedSum | examples/learning_test.py:44-46 | numpy's weighted sum exists exactly for five disease flags (stroke weighted 2) or one (broadcast over all five weights, so 6 times it), and is that sum |
| LearningTest.DotSnoc | examples/learning_test.py:46 | the elementwise-product sum of one more entry adds that entry's product |
| LearningTest.DotOfFive | examples/learning_test.py:46 | the product sum of two five-element arrays is the five products added |
| LearningTest.FeatureScore | examples/learning_test.py:39-46 | the score exists exactly when the weighted sum does and is the weighted sum plus the age points (1 for 65 to 74, 2 from 75) plus the gender flag |
| LearningTest.FeatureScoreBounds | examples/learning_test.py:39-46 | with five 0/1 disease flags and a 0/1 gender the score exists and lies between 0 and 9 |
| LearningTest.FeatureScoreIsPatientScore | examples/learning_test.py:39-46 | the feature score of a patient's group flags, sex flag and age equals the patient's own CHA2DS2-VASc score |
| LearningTest.VectorPrediction | examples/learning_test.py:52-58 | a vector is predicted exactly when it has at least five entries, and the prediction is whether the score of its first five entries, its second-last (gender) and last (age) is at least 3 |
| LearningTest.PredictionReadsCreateDataLayout | examples/learning_test.py:49-58 | on the layout `diseases + [gender, age]` the prediction reads the intended features (used at line 88) |
| LearningTest.PredictionsShape | examples/learning_test.py:49-60 | predictions exist exactly when every vector has at least five entries, one per vector in order |
| LearningTest.ChadsVascPrediction | examples/learning_test.py:49-60 | the loop returns exactly those predictions, or fails as numpy does on a short vector |
| LearningTest.PredictionsNoneAfter | examples/learning_test.py:52-58 | once a prefix of the matrix cannot be predicted, neither can the whole |
| MainFunctions.FirstUnknown | main.py:14-17 | the index of the first record whose patient number is unknown and that has an episode to add (the first `KeyError`), or the number of records when there is none |
| MainFunctions.RoutedSnoc | main.py:14-17 | one more record adds its entries to exactly the patient its number maps to |
| MainFunctions.AddedSnoc | patient.py:20-24 | adding one more episode is one more `add_diagnosis` on the lists and on the disease order |
| MainFunctions.AddedMedicationsSnoc | main.py:20-27 | adding one more medication is one more `add_medication` |
| MainFunctions.AddedKeepsOrder | patient.py:20-24 | adding episodes keeps the disease order a duplicate-free listing of exactly the recorded diseases |
| MainFunctions.AddedListsOf | patient.py:20-24 | after adding episodes a disease is recorded exactly when it was before or one of them has it, and its list is the old list followed by those episodes in order |
| MainFunctions.AddedAppend | main.py:14-17 | adding `xs` and then `ys` is adding `xs + ys`, for the lists and for the order |
| MainFunctions.AddedMedicationsAppend | main.py:20-27 | adding medications `xs` and then `ys` is adding `xs + ys` |
| MainFunctions.AddEach | main.py:16-17 | the inner loop adds one record's episodes to its patient in order and changes nothing else of the patient |
| MainFunctions.AddDiseases | main.py:14-17 | every patient receives, in order, the episodes of the records before the first unknown patient number, the result names that number (the `KeyError`), and nothing else of any patient changes |
| MainFunctions.AddEachMedication | main.py:22-24 | the inner loop adds one record's medications to its patient in order and changes nothing else |
| MainFunctions.AddMedications | main.py:20-27 | every known patient receives, in order, all medications of its records; records of unknown patients are skipped, and nothing else changes |
| MainFunctions.AllDiseasesMembers | main.py:30-36 | a disease is collected exactly when some episode of some record has it |
| MainFunctions.GetAllDiseases | main.py:30-36 | the loop returns exactly the set of diseases of all episodes |
| MainFunctions.AllDiseases | main.py:30-36 | the set holds every disease of every record and nothing that no record has |
| MainFunctions.Count | main.py:39-48 | a disease's count is positive exactly when some record has an episode of it |
| MainFunctions.OfIdNonEmpty | main.py:30-36 | a list has an episode of a disease exactly when that disease is among the list's diseases |
| MainFunctions.CountPositive | main.py:39-48 | a disease's episode count is positive exactly when it is among all diseases |
| MainFunctions.GetDiseaseFrequency | main.py:39-48 | the keys are exactly the given diseases, and each maps to its number of episodes over all records; episodes of other diseases are skipped (`get_disease_frequency` at breakdown.py:142-151 has the same text and is modelled by this member too) |
| MainFunctions.ReduceFeatureSpace | main.py:51-55 | a disease is kept exactly when it is one of the given diseases and its frequency reaches the minimum |
| MainFunctions.FrequentShrinks | main.py:51-55 | raising the minimum never keeps more diseases, and with a minimum of at least 1 only diseases that occur are kept |
| MainFunctions.FixtureCounts | tests/test_main.py:17-26 | on the test's records, for any two distinct diseases, both occur, the first 6 times and the second once, and a minimum of 3 keeps the first only (used at lines 42-50) |
| MainFunctions.MainFixture | tests/test_main.py:17-50 | the test's own records give all diseases `{TEST 1, TEST 2}`, frequencies 6 and 1, and the reduced space `{TEST 1}` |
| MedicationRates.RecordedEffect | practioner_analysis/medication_rate.py:17-20 | one update adds one to the total at its score and one to the medicated count there when it is medicated, leaves every other score alone, and keeps every medicated count within its total |
| MedicationRates.Recorded | practioner_analysis/medication_rate.py:17-20 | an update adds one to the total at its score and, only when a medication followed, one to the medicated count at its score; every other count stays as it was |
| MedicationRates.Equal | practioner_analysis/medication_rate.py:14-15 | equal rates read the same total and the same medicated count at every score |
| MedicationRates.Threshold | practioner_analysis/medication_rate.py:32-41 | with no recorded score at or above the threshold both counts are 0 |
| MedicationRates.AtLeastBump | practioner_analysis/medication_rate.py:32-41 | raising one counter by one raises the threshold sum by one exactly when that score is listed and at least the threshold |
| MedicationRates.AtLeastAppend | practioner_analysis/medication_rate.py:35-39 | a new key at the end of the order adds its count when it is at least the threshold |
| MedicationRates.TotalOfRecorded | practioner_analysis/medication_rate.py:17-41 | one update raises the total at scores of at least `k` by one exactly when its score is at least `k` |
| MedicationRates.MedicatedOfRecorded | practioner_analysis/medication_rate.py:19-41 | one update raises the medicated count at scores of at least `k` by one exactly when it is medicated with a score of at least `k` |
| MedicationRates.ThresholdOfRecorded | practioner_analysis/medication_rate.py:17-41 | on a consistent rate, one update changes `get_count_threshold(k)` by exactly those two amounts |
| MedicationRates.ThresholdCountsUpdates | practioner_analysis/medication_rate.py:17-41 | after any sequence of updates from a fresh rate, `get_count_threshold(k)` is the number of medicated updates and the number of all updates at scores of at least `k` |
| MedicationRates.UpdatesAtLeastSnoc | practioner_analysis/medication_rate.py:17-20 | one more update counts once among those at a score of at least `k`, and once among the medicated ones when it has medication |
| MedicationRates.ReplayedConsistent | practioner_analysis/medication_rate.py:7-20 | a rate built by updates from a fresh one lists each score once and keeps every medicated count within its total |
| MedicationRates.AtLeastBounded | practioner_analysis/medication_rate.py:32-41 | counters bounded pointwise give bounded threshold sums |
| MedicationRates.AtLeastAntitone | practioner_analysis/medication_rate.py:32-41 | raising the threshold never raises a sum |
| MedicationRates.ThresholdProperties | practioner_analysis/medication_rate.py:32-41 | the medicated count never exceeds the total, and both shrink as the threshold rises |
| MedicationRates.MedicationRate.constructor | practioner_analysis/medication_rate.py:7-9 | a new rate has both counters empty |
| MedicationRates.MedicationRate.Update | practioner_analysis/medication_rate.py:17-20 | the counters become the recorded update of the old counters |
| MedicationRates.MedicationRate.GetCountThreshold | practioner_analysis/medication_rate.py:32-41 | the loop over the keys of `total`, skipping those below the threshold, returns the medicated and total counts at scores of at least the threshold |
| MedicationRates.FixtureUpdateCounts | tests/test_practitioner_analysis.py:97-106 | the update sequences of the test's rates have the expected counts at thresholds 0, 2 and 3 |
| MedicationRates.MedicationRateFixture | tests/test_practitioner_analysis.py:97-106 | the rates rebuilt from those updates give `get_count_threshold` of `(0, 5)`, `(0, 4)`, `(1, 2)` and `(0, 0)` |
| Patients.AddDiagnosisKeepsOrder | patient.py:20-24 | `add_diagnosis` keeps the dictionary's key order a duplicate-free listing of exactly the recorded diseases |
| Patients.AddDiagnosisEffect | patient.py:20-41 | after `add_diagnosis(d)` a disease is present at `t` exactly when it was before or it is `d`'s disease and `d` covers `t` |
| Patients.Patient.constructor | patient.py:7-14 | the fields are the arguments, and the patient starts with no diagnoses, no medications and no change events |
| Patients.Patient.AddDiagnosis | patient.py:20-24 | the episode is appended to its disease's list, created empty (and placed last in the key order) when missing; the class invariant is kept |
| Patients.Patient.AddMedication | tests/test_patient.py:146-159 | the medication is appended to the list for its code, created when missing |
| Patients.Patient.IsDead | patient.py:95-98 | true exactly when the death date is on or before the timestamp; no answer when there is no death date (the comparison raises) |
| Patients.Patient.FindChadsvascChanges | patient.py:100-119 | the stored timeline is the as-written change list, with the age events on `birth + relativedelta(years=65/75)`: three events more than the episodes, date-sorted, a rearrangement of the raw list, and starting with the birth event of score 0 when no episode predates the birth |
| Patients.Patient.ShouldHaveAC | patient.py:77-93 | with `"event"` the result is the event decision over the stored timeline, otherwise whether the score is at least 3; once the timeline has been computed, both methods agree for diagnoses starting on or after the birth and a birthday other than 29 February |
| Patients.Patient.Score | patient.py:56-75 | the score lies in 0..9; a woman always has at least 1 point, and an age of 65 or more gives at least 1 point, 75 or more at least 2 |
| Timeline.FirstCovering | patient.py:38-41 | the scan returns true exactly when some episode started by `t` and, unless chronic, has not ended before `t` |
| Timeline.ChronicPresenceIsMonotone | patient.py:34-41 | a chronic disease, once present, stays present at every later date |
| Timeline.AgeReachedOnBirthday | patient.py:43-51 | the age is at least `n` exactly when the date is not before the `n`-th birthday (same month and day, year plus `n`) |
| Timeline.AgeIsMonotone | patient.py:43-51 | age never decreases as the date advances |
| Timeline.AgeReachedOnAddYears | patient.py:43-51 | for a birthday other than 29 February, the age reaches `n` exactly on `birth + relativedelta(years=n)` (used at lines 113-117) |
| Timeline.LowerCase | patient.py:54 | lower-casing keeps the length and maps exactly the letters A to Z to a to z |
| Timeline.IsFemale | patient.py:53-54 | a patient is female exactly when the sex code is `v`, `V`, `f` or `F` |
| Timeline.HasDisease | patient.py:34-41 | true exactly when the disease has a list and some episode in it covers the timestamp: started by then when chronic, running over it otherwise |
| Timeline.CalculateAge | patient.py:43-51 | the age is the difference of the years, one less when the birthday's month and day have not been reached yet |
| Timeline.ScoreWith | patient.py:56-75 | the score over any five disease groups lies between 0 and 9 |
| Timeline.ChadsVasc | patient.py:56-75 | the CHA2DS2-VASc score over the tables lies between 0 and 9 |
| Timeline.GroupPresenceIsMonotone | patient.py:58-62 | a disease group present at one date stays present later |
| Timeline.ScoreIsMonotone | patient.py:56-75 | the score never decreases with time |
| Timeline.AgeFixture | tests/test_patient.py:17-26 | a patient born on 1970-06-06 is 9 until 1980-06-05 and 10 from 1980-06-06 |
| Timeline.HasDiseaseFixtureChronic | tests/test_patient.py:60-67 | the test's chronic presence queries on a disease with episodes in 2005 and 2006 (absent before 2005, present from its first day on, still present in 2007), and on an absent disease |
| Timeline.HasDiseaseFixtureEpisodes | tests/test_patient.py:63-64 | the test's interval presence queries: present on the last day of the 2006 episode, absent once both episodes have ended |
| StableSort.InsertByKeyPermutes | patient.py:119 | insertion adds exactly the inserted element |
| StableSort.InsertByKeySorted | patient.py:119 | inserting into a key-ordered sequence keeps it ordered |
| StableSort.InsertByKeyKeepsHead | patient.py:119 | inserting an element with a key not below the head's leaves the head first |
| StableSort.InsertByKeyWithKey | patient.py:119 | insertion puts the new element after every element with an equal key |
| StableSort.SortByKeyProperties | patient.py:119 | `sorted` returns a key-ordered permutation of its input |
| StableSort.SortByKeyIsStable | patient.py:119 | elements with equal keys keep their relative order (Python's sort is stable) |
| StableSort.SortByKeyOfSorted | csv_reader/diagnose_csv.py:48 | an already ordered input comes back unchanged |
| StableSort.SortByKeyKeepsLeastHead | patient.py:107-119 | an element that comes first with the least key stays first |
| StableSort.SortedInit | csv_reader/diagnose_csv.py:48 | an ordered sequence without its last element is ordered, and its last element is not below the one before |
| StableSort.SortedAppend | csv_reader/diagnose_csv.py:48-59 | appending an element with a key not below the last keeps a sequence ordered |
| StableSort.SortedReplaceLast | csv_reader/diagnose_csv.py:55-57 | replacing the last element by one with the same key keeps a sequence ordered |
| StableSort.SameTail | patient.py:107-119 | two permutations with the same first element hold the same elements after it |
| DiagnoseCsv.FailurePersists | csv_reader/diagnose_csv.py:48-59 | once the loop has raised, the remaining episodes change nothing |
| DiagnoseCsv.LoopStep | csv_reader/diagnose_csv.py:49-59 | one pass of the loop on its four variables gives the modelled step, raising where Python does |
| DiagnoseCsv.RemoveOverlap | csv_reader/diagnose_csv.py:42-60 | the method returns exactly the loop's result over the episodes sorted stably by start date, or its error |
| DiagnoseCsv.Step | csv_reader/diagnose_csv.py:49-59 | one loop iteration either remembers the episode as `prev` and leaves a non-empty result that grew by at most one run, or fails, and fails only when the episode would extend a run while the result is still empty (`result[-1]` raises) |
| DiagnoseCsv.Fold | csv_reader/diagnose_csv.py:48-59 | a loop that completes never yields more runs than it was given episodes |
| DiagnoseCsv.Merged | csv_reader/diagnose_csv.py:42-60 | a merge that succeeds yields at most as many runs as episodes, and none exactly when it was given none |
| DiagnoseCsv.StepOpens | csv_reader/diagnose_csv.py:52-54 | an episode whose practitioner differs from the previous one's, or that starts more than one day after the current stop, is appended as a run of its own and becomes the current run |
| DiagnoseCsv.StepMerges | csv_reader/diagnose_csv.py:55-57 | otherwise the last run is replaced by one from the current start to the later of the two stops, with the new episode's disease and practitioner |
| DiagnoseCsv.StepFails | csv_reader/diagnose_csv.py:52-57 | a step raises when the episode starts on 0001-01-01 (the date subtraction underflows) or when it would widen a run while none exists (`result[-1]` on an empty list) |
| DiagnoseCsv.FoldShape | csv_reader/diagnose_csv.py:48-59 | after a successful loop there are between one and as many runs as episodes, the last run spans the current start and stop with the last episode's labels, and `prev` is the last episode |
| DiagnoseCsv.FirstStepSucceeds | csv_reader/diagnose_csv.py:43-57 | the first episode passes exactly when it starts on or after 0001-01-03 |
| DiagnoseCsv.LateStepSucceeds | csv_reader/diagnose_csv.py:52-57 | once a run is open, an episode starting on or after 0001-01-03 never makes the loop raise |
| DiagnoseCsv.FoldSucceeds | csv_reader/diagnose_csv.py:48-59 | on sorted input the loop raises exactly when some episode starts on 0001-01-01 or 0001-01-02 |
| DiagnoseCsv.FoldStarts | csv_reader/diagnose_csv.py:48-59 | the first run starts with the first episode, and the current run no later than the last episode |
| DiagnoseCsv.FoldSorted | csv_reader/diagnose_csv.py:48-59 | the runs come out ordered by start date |
| DiagnoseCsv.FoldSeparated | csv_reader/diagnose_csv.py:48-59 | neighbouring runs of one practitioner leave a gap of at least one whole day |
| DiagnoseCsv.WidenedRunContains | csv_reader/diagnose_csv.py:55-57 | the widened run holds the run it replaces and the episode that widened it |
| DiagnoseCsv.FoldContains | csv_reader/diagnose_csv.py:48-59 | every episode read lies within some run |
| DiagnoseCsv.ContainedWidenStep | csv_reader/diagnose_csv.py:55-57 | a widening step keeps every episode read within some run |
| DiagnoseCsv.FoldCovers | csv_reader/diagnose_csv.py:48-59 | every day of every run lies within some episode: merging bridges no gap of a whole day |
| DiagnoseCsv.FoldOrigins | csv_reader/diagnose_csv.py:48-59 | every run carries the disease and the practitioner of one of the episodes |
| DiagnoseCsv.FoldOfSeparated | csv_reader/diagnose_csv.py:48-59 | runs that are already separated and start late enough pass through the loop unchanged |
| DiagnoseCsv.MergedSucceeds | csv_reader/diagnose_csv.py:42-60 | `remove_overlap` raises exactly when some episode starts on 0001-01-01 or 0001-01-02 |
| DiagnoseCsv.MergedRuns | csv_reader/diagnose_csv.py:42-60 | the result has at most as many runs as episodes, none exactly when there are no episodes, and its runs are sorted, separated and start late enough |
| DiagnoseCsv.MergedContains | csv_reader/diagnose_csv.py:42-60 | every input episode lies within some run of the result |
| DiagnoseCsv.MergedCovers | csv_reader/diagnose_csv.py:42-60 | every day of every run of the result lies within some input episode |
| DiagnoseCsv.MergedOrigins | csv_reader/diagnose_csv.py:42-60 | every run of the result carries the disease and practitioner of some input episode |
| DiagnoseCsv.MergedIsIdempotent | csv_reader/diagnose_csv.py:42-60 | merging the result again changes nothing |
| DiagnoseCsv.DistinctIdsProperties | csv_reader/diagnose_csv.py:33-37 | the dictionary's keys are exactly the diseases present, each once |
| DiagnoseCsv.GroupsFor | csv_reader/diagnose_csv.py:39 | one group per key, holding that disease's episodes in input order |
| DiagnoseCsv.OfDiseaseAppend | csv_reader/diagnose_csv.py:34-37 | selecting one disease's episodes distributes over concatenation |
| DiagnoseCsv.OfDiseaseMembers | csv_reader/diagnose_csv.py:34-37 | exactly the episodes of that disease are selected |
| DiagnoseCsv.OfDiseaseOfUniform | csv_reader/diagnose_csv.py:34-37 | a list of one disease's episodes is selected whole for that disease and not at all for another |
| DiagnoseCsv.OfDiseaseAbsent | csv_reader/diagnose_csv.py:34-37 | with no episode of a disease, nothing is selected for it |
| DiagnoseCsv.GroupDiagnoses | csv_reader/diagnose_csv.py:32-39 | the one-pass dictionary loop returns the episodes split by disease, the groups in order of first appearance and each in input order |
| DiagnoseCsv.Grouped | csv_reader/diagnose_csv.py:32-39 | the groups split the episodes by disease: each group is non-empty and holds one disease, no disease has two groups, and every episode is in some group |
| DiagnoseCsv.GroupsArePartition | csv_reader/diagnose_csv.py:32-39 | with the diseases listed in order of first appearance, each group is the non-empty list of that disease's episodes, the listed diseases are distinct, and every episode is in some group |
| DiagnoseCsv.GroupIsUniform | csv_reader/diagnose_csv.py:35-37 | the group of a disease that occurs is non-empty and holds only that disease's episodes |
| DiagnoseCsv.MergedLabelsRuns | csv_reader/diagnose_csv.py:42-60 | `remove_overlap` labels each run by one of its episodes |
| DiagnoseCsv.MergedSucceedsEverywhere | csv_reader/diagnose_csv.py:42-60 | `remove_overlap` succeeds exactly on episodes that all start on or after 0001-01-03 |
| DiagnoseCsv.MergeGroupsSucceeds | csv_reader/diagnose_csv.py:67-68 | merging the groups succeeds exactly when every group starts late enough |
| DiagnoseCsv.MergeGroupsSnoc | csv_reader/diagnose_csv.py:67-68 | merging one more group appends its runs |
| DiagnoseCsv.MergeGroupsFor | csv_reader/diagnose_csv.py:64-69 | merging the groups of distinct diseases merges each disease on its own and adds nothing for a disease without a group |
| DiagnoseCsv.PatientMergedPerDisease | csv_reader/diagnose_csv.py:64-69 | a patient's merge succeeds exactly when every episode starts late enough, and then its runs of each disease are `remove_overlap` of that disease's episodes |
| DiagnoseCsv.MergeGroupsFailurePersists | csv_reader/diagnose_csv.py:67-68 | once a group has raised, later groups change nothing |
| DiagnoseCsv.RecordsFailurePersists | csv_reader/diagnose_csv.py:63-71 | once a patient has raised, later patients change nothing |
| DiagnoseCsv.MergedRecordsShape | csv_reader/diagnose_csv.py:63-71 | the merge succeeds exactly when every patient's episodes start late enough, and then keeps every patient number in place with that patient's merged episodes |
| DiagnoseCsv.MergePatient | csv_reader/diagnose_csv.py:65-69 | the inner loop returns exactly that patient's merged runs, or the error |
| DiagnoseCsv.RecordReplaced | csv_reader/diagnose_csv.py:64-69 | replacing the next patient's entry by its merge extends the merged prefix by one patient and leaves the rest as read |
| DiagnoseCsv.MergeOverlappingDiagnoses | csv_reader/diagnose_csv.py:63-71 | the loop, replacing each patient's episodes in turn, returns exactly the merged records, or the first error |
| DiagnoseCsv.MergedOfSorted | csv_reader/diagnose_csv.py:48 | on input already sorted by start date the merge is the loop itself |
| DiagnoseCsv.TouchingThenGap | csv_reader/diagnose_csv.py:42-60 | three episodes of one practitioner, the second starting at most a day after the first ends and the third after a gap of more than a day, give two runs: the first two joined, then the third |
| DiagnoseCsv.AdjacentEpisodesMerge | csv_reader/diagnose_csv.py:42-60 | a concrete instance: episodes ending 2010-03-01 and starting 2010-03-02 join; one starting 2010-05-03 after an end on 2010-05-01 does not |
| DiagnoseCsv.AlternatingPractitioners | csv_reader/diagnose_csv.py:52-54 | when each episode's practitioner differs from the previous one's, every episode is a run of its own, overlapping or not |
| DiagnoseCsv.InterleavedPractitionerSplits | csv_reader/diagnose_csv.py:52-54 | a concrete instance: an episode of practitioner B inside one of A splits A's overlapping episodes into separate runs |
| Practitioner.DayNumbersAt | practitioner.py:111 | entry `i` of the edges is the day number of bin `i` |
| Practitioner.MonthBinsShape | practitioner.py:9-18 | the bins start at `start`, each is `bin_size` months after the one before, every bin but the last is before `end`, and the last is not |
| Practitioner.MonthBinsIncreasing | practitioner.py:9-18 | the bins strictly increase |
| Practitioner.GetMonthBins | practitioner.py:9-18 | the `while` loop returns exactly those bins (a step of at least one month, without which it would not end) |
| Practitioner.MonthBins | practitioner.py:9-18 | the bins start at the first date and run until the last one is no longer before the end date |
| Practitioner.MonthBinsStep | practitioner.py:12-16 | while the current bin is before the end date, the next bin is strictly later and the bins are the current one followed by those from the next |
| Practitioner.MonthBinsOfChain | practitioner.py:9-18 | any chain with that shape is the bin list, so the shape determines it |
| Practitioner.MonthBinsFixture | tests/test_practitioner_analysis.py:28-37 | 2010-01-01 to 2012-02-01 by three months gives the test's ten bins, ending 2012-04-01 |
| Practitioner.BinFrom | practitioner.py:111-112 | the `while` scan from bin `i` stops at a bin `k` whose next edge is not before the date, having passed only edges before the date |
| Practitioner.BinFromIs | practitioner.py:111-112 | any bin with those properties is where the scan stops |
| Practitioner.BinIndex | practitioner.py:111-112 | a date not after the last bin lands in a bin `b` with the date not after `bins[b + 1]` and, unless `b` is 0, after `bins[b]` |
| Practitioner.BoundaryGoesToPreviousBin | practitioner.py:111-112 | a date exactly on a bin boundary `bins[k]` is counted in the preceding bin `k - 1` (the scan compares with `>`) |
| Practitioner.BinIndexMonotone | practitioner.py:100-112 | the bin index never decreases along dates, which is why the sweep can keep `i` between tuples |
| Practitioner.Items | practitioner.py:103-109 | one item per tuple, holding the practitioner and start day the filters read |
| Practitioner.Observations | practitioner.py:114-117 | one observation per tuple: the score at the start date and whether a medication of the group is taken that day or the next |
| Practitioner.StopIndex | practitioner.py:103-109 | the index of the first tuple that passes the practitioner and start filters but starts after `end` (the `break`), or the length |
| Practitioner.CellUpdatesStep | practitioner.py:103-117 | the updates a cell receives from one more tuple are its earlier ones plus that tuple's observation when it lands there |
| Practitioner.EmptyGridMatches | practitioner.py:92 | the fresh grid of empty rates matches the sweep before any tuple |
| Practitioner.SkipKeepsGrid | practitioner.py:104-107 | a tuple skipped by the practitioner or start filter leaves every cell as it was |
| Practitioner.RecordKeepsGrid | practitioner.py:114-117 | recording a counted tuple in its cell keeps every cell equal to the replay of its updates |
| Practitioner.AdvanceBin | practitioner.py:111-112 | the `while` loop moves `i` to exactly where the scan from `i` stops |
| Practitioner.Sweep | practitioner.py:102-117 | on date-sorted tuples the loop either fails with `IndexError` (exactly when there is one bin and some tuple is counted before the break) or returns a grid whose every cell replays, in order, exactly the observations of the counted tuples of its practitioner and bin before the break |
| Practitioner.SweepStep | practitioner.py:103-117 | one iteration either skips, records the tuple in its bin's cell, breaks exactly at the stop index, or fails as `date_bins[i + 1]` does with a single bin |
| Practitioner.SweptFailure | practitioner.py:111 | a counted tuple before the break with a single bin makes the outcome `IndexError` |
| Practitioner.SweptSuccess | practitioner.py:102-117 | a grid that matches up to the break, with no counted tuple when there is one bin, is the promised outcome |
| Practitioner.RecordItem | practitioner.py:111-117 | recording a counted tuple: the bin moves forward to the tuple's bin and the grid matches one more tuple |
| Practitioner.ItemsSorted | practitioner.py:100 | tuples sorted by start date give items sorted by day |
| Practitioner.BinDiagnoses | practitioner.py:100-117 | the sweep over sorted tuples and the month bins gives the promised outcome in terms of the tuples' items and observations |
| Practitioner.SingleBinIffNotBefore | practitioner.py:9-18 | `get_month_bins` returns a single bin exactly when `start` is not before `end` |
| Practitioner.IndexErrorOnlyOnOneDay | practitioner.py:106-111 | the `IndexError` can only happen when `start == end`, since a counted tuple needs `start <= d <= end` and a single bin needs `start >= end` |
| Practitioner.InCellIsBinIndex | practitioner.py:103-115 | a tuple lands in cell `(pr, k)` exactly when it is counted, it is `pr`'s, and bin `k` is its bin index |
| Practitioner.PractitionersInMembers | practitioner.py:26-33 | a practitioner is collected exactly when some diagnosis is theirs, has a non-empty practitioner, and matches `spec` when one is given |
| Practitioner.PractitionersOfSpecAmongAll | practitioner.py:21-35 | restricting to a specialism collects no practitioner the unrestricted call misses |
| Practitioner.Paired | practitioner.py:44-49 | each diagnosis paired with its patient, in order |
| Practitioner.EpisodesOfSnoc | practitioner.py:25-47 | walking one more disease list of the dictionary appends that list |
| Practitioner.PractitionersInSnoc | practitioner.py:26-33 | one more diagnosis adds its practitioner exactly when it passes the filter |
| Practitioner.PractitionersInAppend | practitioner.py:25-33 | collecting from two lists in turn is collecting from their concatenation |
| Practitioner.CollectFromList | practitioner.py:26-33 | the innermost loop adds exactly the practitioners of one list that pass the filter |
| Practitioner.CollectPractitioners | practitioner.py:25-33 | the two inner loops add exactly the practitioners of one patient's diagnoses, in dictionary order |
| Practitioner.GetPractitioners | practitioner.py:21-35 | the result is exactly the cohort's practitioners that pass the filter |
| Practitioner.AppendPairs | practitioner.py:44-49 | the loop appends each diagnosis paired with its patient, in order |
| Practitioner.PairedAppend | practitioner.py:44-49 | pairing distributes over concatenation |
| Practitioner.AppendPatientTuples | practitioner.py:41-49 | one patient contributes the given disease's list when there is a disease (nothing when it is absent), otherwise all its diagnoses in dictionary order |
| Practitioner.GetDiagnosisTuples | practitioner.py:38-51 | the result is the tuples of every patient in turn |
| Practitioner.EpisodesOfMembers | practitioner.py:47-49 | a diagnosis is walked exactly when it is in the list of a disease of the dictionary |
| Practitioner.SelectedDiseaseAmongAll | practitioner.py:41-49 | one disease's diagnoses are among all of the patient's |
| Practitioner.CohortPractitionersMembers | practitioner.py:21-35 | a practitioner is in the cohort exactly when some patient has a diagnosis of theirs that passes the filter |
| Practitioner.DiseaseFilter | practitioner.py:94-97 | there is a disease filter exactly when both `spec` and `diag` are given, and it is their disease |
| Practitioner.AnalyzePractitioners | practitioner.py:88-122 | with the bins, practitioners and start-sorted tuples the function computes, the result fails exactly when there is a single bin and a counted tuple before the break, and otherwise every cell of the grid replays the observations of exactly the counted tuples of its practitioner and bin before the break |
| PractitionerAnalysis.IterPractitionersAgree | practioner_analysis/practitioner.py:22-32 | when `iter_diagnoses` walks the disease lists in dictionary order, this copy collects the same practitioners as the one in practitioner.py |
| PractitionerAnalysis.IterTuplesAgree | practioner_analysis/practitioner.py:35-47 | under the same condition, both copies build the same tuples |
| PractitionerAnalysis.GetPractitioners | practioner_analysis/practitioner.py:22-32 | the result is exactly the practitioners of the diagnoses `iter_diagnoses` yields that have a practitioner and match `spec` when one is given |
| PractitionerAnalysis.GetDiagnosisTuples | practioner_analysis/practitioner.py:35-47 | the result pairs each patient, in turn, with the given disease's list or with every diagnosis `iter_diagnoses` yields |
| PractitionerAnalysis.AnalyzePractitioners | practioner_analysis/practitioner.py:50-84 | the same outcome as the other copy, over this copy's practitioners and tuples: `IndexError` exactly when there is a single bin and a counted tuple before the break, otherwise a grid whose every cell replays exactly its counted tuples' observations |
| Simulations.Keys | simulations.py:33 | the keys are the patient numbers in the dictionary's order |
| Simulations.RoundHalfEven | simulations.py:34 | Python's `round(a / b)`: the result is within half of `b` of `a / b`, and even on a tie |
| Simulations.NearestIsUnique | simulations.py:34 | two integers nearest to `a / b`, ties to even, are the same |
| Simulations.RoundHalfEvenIsUnique | simulations.py:34 | the rounded value is the only integer with those properties |
| Simulations.RoundHalfEvenExamples | simulations.py:34 | `round(2.5) == 2`, `round(3.5) == 4` and `round(4 * 0.3) == 1` |
| Simulations.PrefixLength | simulations.py:41 | the length of the slice `s[0:k]`: `k` capped at the length, and a negative `k` counting from the end |
| Simulations.RandomSubset | simulations.py:32-41 | the test set has the slice length of the rounded share of the keys, holds only patient numbers, and holds none twice when the numbers are unique |
| Simulations.PrefixOfShuffle | simulations.py:38-41 | a prefix of a shuffle of the keys holds only keys, none twice when the keys are unique |
| Simulations.RandomSubsetSize | simulations.py:32-41 | for a rate between 0 and 1 the test set has exactly the rounded share of the patients |
| Simulations.RandomSubsetFixture | tests/test_main.py:52-56 | four patients at rate one half give a test set of two of their numbers |
| Simulations.SimDatesEnds | simulations.py:45-62 | there are simulation months exactly when `start` is before `end`; the first is `start`, and one more step from the last is not before `end` |
| Simulations.SimDatesInRange | simulations.py:45-62 | every simulation month lies in `[start, end)` and never on a later day of the month than `start` |
| Simulations.SimDatesSteps | simulations.py:62 | each simulation month is the previous one plus `step` months |
| Simulations.SimDatesIncrease | simulations.py:45-62 | the simulation months strictly increase |
| Simulations.SimDatesStep | simulations.py:47-62 | one more pass of the `while` loop: the months still to come are the current one followed by those after it |
| Simulations.Admitted | simulations.py:54-58 | a patient is yielded exactly when alive, with atrial fibrillation, last diagnosed at most 366 days ago and (where checked) not on an antithrombotic agent; the comparison raises when alive with atrial fibrillation but without a last diagnosis |
| Simulations.MonthEmissionsMembers | simulations.py:48-60 | a month raises exactly when some patient's test raises; otherwise its values are exactly the admitted patients with that month and their test-set flag |
| Simulations.MonthEmissionsNoneAfter | simulations.py:48-60 | once the patients so far raise, the month raises |
| Simulations.EmissionsNoneAfter | simulations.py:47-62 | once the months so far raise, the run raises |
| Simulations.EmissionsMembers | simulations.py:47-62 | the run raises exactly when some month does; otherwise its values are exactly the values of its months |
| Simulations.MonthEmissionsDated | simulations.py:60 | every value of a month carries that month's date |
| Simulations.EmissionsSnoc | simulations.py:47-62 | the values of one more month follow those of the earlier months |
| Simulations.EmissionDates | simulations.py:60 | every value carries one of the simulation months |
| Simulations.EmissionsInDateOrder | simulations.py:47-62 | with months as the outer loop and increasing months, the yielded dates never go back |
| Simulations.MonthEmissionsSnoc | simulations.py:48-60 | one more patient adds its value when admitted, and raises when its test raises |
| Simulations.MonthEmissions | simulations.py:48-60 | a month that does not raise yields at most one value per patient |
| Simulations.Emissions | simulations.py:47-62 | a run that does not raise yields at most one value per patient and month |
| Simulations.EmitMonth | simulations.py:48-60 | the inner loop yields exactly the month's values, or raises |
| Simulations.Generate | simulations.py:47-62 | the month loop yields exactly the values of the simulation months, or raises |
| Simulations.PatientMonthGenerator | simulations.py:44-62 | the generator yields exactly the values of the simulation months, with the test set drawn from the shuffled keys at the given rate |
| Simulations.FeatureVector | simulations.py:15-20 | the vector has two entries per disease plus gender and age |
| Simulations.FeatureVectorLayout | simulations.py:15-20 | entry `i` flags chronic presence of disease `i`, entry `n + i` is its days since diagnosis when present and 0 otherwise, and the last two are the female flag and the age |
| Simulations.FeatureLabels | simulations.py:26-29 | the labels are the disease names, the same names after `days since `, then `Gender` and `Age` |
| Simulations.LabelsMatchVector | simulations.py:15-29 | the labels name the vector's entries one for one |
| Simulations.FeatureData.constructor | simulations.py:66-67 | a fresh dictionary with empty data, targets and labels |
| Simulations.AddFeatureSlice | simulations.py:14-29 | the vector and the stroke label are appended, and the labels are set when shorter than the vector and kept otherwise |
| Simulations.PatientsOf | simulations.py:71 | the patients of the values, in order |
| Simulations.Vectors | simulations.py:71-75 | one vector per value |
| Simulations.Targets | simulations.py:71-75 | one stroke label per value |
| Simulations.FeatureSnoc | simulations.py:71-75 | one more value adds its vector and its label |
| Simulations.PartSizes | simulations.py:72-75 | every value goes to exactly one of the two sets |
| Simulations.PartSnoc | simulations.py:72-75 | one more value joins the set its flag names |
| Simulations.AddValue | simulations.py:14-29 | appending one value's slice to a dictionary filled with some values fills it with one more |
| Simulations.SimulatePredictor | simulations.py:65-80 | raises exactly when the generator does; otherwise two distinct fresh dictionaries, the learn one filled with exactly the values outside the test set and the test one with exactly those in it, in order |
| Simulations.Route | simulations.py:72-75 | one pass sends the value to the test dictionary when flagged and to the learn dictionary otherwise |
| Simulations.SendTo | simulations.py:72-75 | adding a value to one dictionary leaves the other as it was |
| Simulations.Decisions | simulations.py:89 | one 0/1 threshold decision per value |
| Simulations.StrokeFlags | simulations.py:90 | one 0/1 stroke label per value, the value's label |
| Simulations.ThresholdSnoc | simulations.py:89-90 | one more value adds its decision and its label |
| Simulations.ThresholdRows | simulations.py:86-90 | the loop gives one decision and one label per kept value, as many of each |
| Simulations.ThresholdStep | simulations.py:86-90 | one pass skips a value outside the test set when only the test set is kept, and otherwise adds its row |
| Simulations.AddRow | simulations.py:89-90 | one kept value's decision and label are appended |
| Simulations.SimulateChadsVasc | simulations.py:83-91 | raises exactly when the generator does; otherwise the data are the threshold decisions and the targets the stroke labels of the kept values, as many of each |
| PackageSimulations.ChadsVascFeature | simulations/simulations.py:16-21 | seven features, one per score group, the gender and the age |
| PackageSimulations.ChadsVascFeatureScore | simulations/simulations.py:16-21 | the features add up to the patient's CHA2DS2-VASc score, the stroke group counting twice and the age by its age points |
| PackageSimulations.FeatureSlice | simulations/simulations.py:27-35 | one entry per disease, then the gender and the age |
| PackageSimulations.FeatureSliceLayout | simulations/simulations.py:27-35 | entry `i` is the days since disease `i` when chronically present and 10000 otherwise (or its 0/1 presence flag without days), then the female flag and the age |
| PackageSimulations.FlagSliceIsOlderVector | simulations/simulations.py:32-35 | without days, the slice is the presence flags, gender and age of the older feature vector |
| PackageSimulations.DaysSliceAgainstOlderVector | simulations/simulations.py:28-30 | with days, an entry is the older vector's days when the disease is present and 10000 where the older vector writes 0 |
| PackageSimulations.FeatureLabels | simulations/simulations.py:42-47 | the labels are the disease strings followed by `Gender` and `Age` |
| PackageSimulations.LabelsMatchSlice | simulations/simulations.py:27-47 | the labels are as long as the slice, and its last two entries are the gender and the age they name |
| PackageSimulations.PartitionMembers | simulations/simulations.py:54-58 | a number is in the positive list exactly when it belongs to a patient with a stroke by 2050-01-01, in the negative list exactly when it belongs to another patient, and the two lists share out all patients |
| PackageSimulations.UniqueSnoc | simulations/simulations.py:56-58 | appending a new number keeps a list without repeats |
| PackageSimulations.UniqueConcat | simulations/simulations.py:67 | two lists without repeats and without common numbers concatenate without repeats |
| PackageSimulations.PartitionUnique | simulations/simulations.py:54-58 | with distinct patient numbers, neither list repeats a number and none is in both |
| PackageSimulations.TruncDiv | simulations/simulations.py:60 | Python's `int(a / b)`: the quotient truncated toward zero |
| PackageSimulations.PatientSubset | simulations/simulations.py:50-68 | the learn set has the slice length of the half learn size in each list, summed |
| PackageSimulations.PatientSubsetKinds | simulations/simulations.py:60-67 | for a non-negative rate, the learn set is as many positives as the half learn size allows followed by as many negatives |
| PackageSimulations.PrefixesOfShuffles | simulations/simulations.py:64-67 | prefixes of rearrangements of the two lists hold members of the first list, then of the second |
| PackageSimulations.PatientSubsetKeys | simulations/simulations.py:50-68 | every learn-set member is a patient number, and with distinct numbers none occurs twice |
| PackageSimulations.GetPatientSubset | simulations/simulations.py:50-68 | the loop and the slices give exactly the learn set |
| PackageSimulations.LearnSetup | simulations/simulations.py:75-88 | a patient counts as in the test set exactly when not in the learn set at rate one half, and there is no antithrombotic test |
| PackageSimulations.PatientMonthGenerator | simulations/simulations.py:71-90 | the generator yields exactly the values of the simulation months for that setup, or raises |
| PackageSimulations.Rows | simulations/simulations.py:105-109 | one feature row per value |
| PackageSimulations.Numbers | simulations/simulations.py:117 | one patient number per value |
| PackageSimulations.RowsSnoc | simulations/simulations.py:105-117 | one more value adds its row, its label and its number |
| PackageSimulations.SplitSizes | simulations/simulations.py:111-117 | the learn rows, labels and numbers are as many as each other, the test rows and labels too, and together they are one per value |
| PackageSimulations.SplitStep | simulations/simulations.py:106-117 | one pass sends the value's row and label to the test lists when flagged and to the learn lists, with its number, otherwise |
| PackageSimulations.SimulatePredictor | simulations/simulations.py:93-122 | raises exactly when the generator does; otherwise the learn lists hold exactly the rows, labels and numbers of the learn values, the test lists those of the test values, and the labels are the score-group names or the feature labels |
| PackageSimulations.SimulateChadsVasc | simulations/simulations.py:125-133 | raises exactly when the generator does; otherwise the data are the threshold decisions and the targets the stroke labels of the kept values, as many of each |

## Left out

- Reading the CSV files (`get_diagnoses`, `get_patients`, `get_medications`, `strptime`, pandas), `prepare_data` and `main`: these are file input and library parsing. The model keeps only the 9999-12-31 date used for a missing end or death date.
- Plotting, `print`, timers, `groups_to_LaTeX_table`, `np.save`/`np.load` and `ConfusionMatrix.dump`: these are output only.
- Floating-point results: the confusion-matrix ratios, `MedicationRate.get_rates` and `get_rate_threshold`, `BreakdownRow.mean_std_age` and `percentage_female`, `find_adjusted_stroke_rate`, `calculate_stroke_risk` and the cost and scoring examples. The counts they start from are modelled.
- ConfusionMatrices.NewConfusionMatrix: does not model the `ZeroDivisionError` of the ratios, because the ratios themselves are left out. The constructor raises exactly when `f_p == 0` (through `fpr` and then `plr = tpr / fpr`), `t_n == 0` (through `tnr` and then `nlr`) or `f_n == 0` (through `nlr == 0` and then `dor`). An empty input is one such case, and so is a perfect classifier (no false positives or negatives).
- Breakdown.Breakdown: returns the counts and rows for every input, while `breakdown` then raises `ZeroDivisionError`. The `% Female` column (breakdown.py:35) calls `percentage_female`, which divides by the row's length (breakdown.py:201-202). So it raises exactly when some score 0..9 has no living patient, an empty cohort included. The later division by the patient count (breakdown.py:38) is then never the one that raises (`FilledRowsNeedTenPatients`). The exception is not modelled because everything `breakdown` does after its loop is building and printing that float table, which is left out.
- ShouldHaveAC: the agreement of the two methods is stated only for birthdays other than 29 February. For a 29 February birthday the stored timeline as written places the age events a day before the age changes, and the two methods can disagree (see Findings).
- The predictors, the sklearn code, `compare_predictor_chads_vasc`, `random_prediction` and the random draws of `create_data`: these are library calls and randomness.
- `random.shuffle` and `random.seed`: a shuffle is an arbitrary input permutation and the seed is not modelled.
- Python's string `hash` is salted per process, so `Disease.__hash__` takes it as a parameter.
- The patient queries listed above are parameters, not definitions.
- Year arithmetic past 9999: Python raises `OverflowError` there, but the dates here have no upper year bound.
- The month steps of the simulations and the bin width of the practitioner analysis require a step of at least one. With zero the loops never end.
- `Patient.get_current_diseases`: it reads a start date from a list (`patient.py:29`), so it raises for every patient with a diagnosis.
- `practioner_analysis/plot.group_data`: it adds `MedicationRate` objects, which define no addition.
- `MedicationRate.__repr__`: it only formats output.
- `practitioner.py:145-146`: the rate loop discards the result of `np.append`, so it only ever returns empty arrays. It is part of the left-out float code.

## Findings

| source | as written | input that shows it | evidently intended | confidence | as-written member | corrected member |
|---|---|---|---|---|---|---|
| patient.py:113-117 | the age events of the change timeline fall on `birth + relativedelta(years=65)` and `years=75`, which clamp a 29 February birthday to 28 February, a day on which `calculate_age` still gives 64 or 74 | a woman born 2000-02-29 with no diagnoses, asked on 2075-03-01: her score is 3, yet the timeline's last event (2075-02-28) carries score 2, so the event decision says no | the age events fall on the first day the age is 65 or 75 (1 March in a non-leap year), so the timeline always agrees with the score | not executed | ChangeEvents.LeapDayBirthDisagrees | ChangeEvents.ChangesAgree |
