/**
 * The score breakdown of breakdown.py: every patient is counted (and every
 * female patient), and each patient alive at the timestamp adds its age, and
 * whether it is female, to the row of its CHA2DS2-VASc score, one row per
 * score 0 to 9.
 */
module Breakdown {
  import opened Dates
  import opened Timeline
  import opened Patients

  /** `BreakdownRow`: the ages of the patients in a row and how many of them are female. */
  class BreakdownRow {
    var ages: seq<int>
    var femaleCount: nat

    /** No more females than patients in the row. */
    ghost predicate Valid()
      reads this
    {
      femaleCount <= |ages|
    }

    constructor ()
      ensures Valid() && ages == [] && femaleCount == 0
    {
      ages := [];
      femaleCount := 0;
    }

    /** `update(age, is_female)`: the age is appended and the female count raised for a female. */
    method Update(age: int, isFemale: bool)
      requires Valid()
      modifies this
      ensures Valid()
      ensures ages == old(ages) + [age]
      ensures femaleCount == old(femaleCount) + (if isFemale then 1 else 0)
    {
      ages := ages + [age];
      if isFemale {
        femaleCount := femaleCount + 1;
      }
    }
  }

  /** The number of female patients, dead ones included. */
  function FemaleCount(patients: seq<Patient>): (n: nat)
    reads patients
    ensures n <= |patients|
  {
    if patients == [] then 0
    else FemaleCount(patients[..|patients| - 1]) + (if IsFemale(patients[|patients| - 1].sex) then 1 else 0)
  }

  /** The patient lands in the row of score `s` at time `t`: alive then, with that score. */
  predicate InRow(p: Patient, t: Date, s: int)
    reads p
  {
    p.queries.isAlive(t) && p.Score(t) == s
  }

  /** The ages row `s` collects, in the patients' order. */
  function RowAges(patients: seq<Patient>, t: Date, s: int): seq<int>
    reads patients
  {
    if patients == [] then []
    else
      var p := patients[|patients| - 1];
      RowAges(patients[..|patients| - 1], t, s) + (if InRow(p, t, s) then [CalculateAge(p.birthDate, t)] else [])
  }

  /** The number of female patients row `s` collects. */
  function RowFemales(patients: seq<Patient>, t: Date, s: int): nat
    reads patients
  {
    if patients == [] then 0
    else
      var p := patients[|patients| - 1];
      RowFemales(patients[..|patients| - 1], t, s) + (if InRow(p, t, s) && IsFemale(p.sex) then 1 else 0)
  }

  /** The number of patients alive at `t`. */
  function AliveCount(patients: seq<Patient>, t: Date): nat
    reads patients
  {
    if patients == [] then 0
    else AliveCount(patients[..|patients| - 1], t) + (if patients[|patients| - 1].queries.isAlive(t) then 1 else 0)
  }

  /** A row never holds more females than patients. */
  lemma {:induction false} RowFemalesAtMostAges(patients: seq<Patient>, t: Date, s: int)
    ensures RowFemales(patients, t, s) <= |RowAges(patients, t, s)|
  {
    if patients != [] {
      RowFemalesAtMostAges(patients[..|patients| - 1], t, s);
    }
  }

  /** The number of patients in the rows of scores below `k`. */
  function RowsSize(patients: seq<Patient>, t: Date, k: nat): nat
    reads patients
  {
    if k == 0 then 0 else RowsSize(patients, t, k - 1) + |RowAges(patients, t, k - 1)|
  }

  /** One more patient adds one to the rows below `k` exactly when it is alive with a score below `k`. */
  lemma {:induction false} RowsSizeSnoc(patients: seq<Patient>, t: Date, k: nat)
    requires patients != []
    ensures var p := patients[|patients| - 1];
            RowsSize(patients, t, k) == RowsSize(patients[..|patients| - 1], t, k) + (if p.queries.isAlive(t) && p.Score(t) < k then 1 else 0)
  {
    var p := patients[|patients| - 1];
    if k == 0 {
      assert 0 <= p.Score(t);
    } else {
      RowsSizeSnoc(patients, t, k - 1);
      assert |RowAges(patients, t, k - 1)| == |RowAges(patients[..|patients| - 1], t, k - 1)| + (if InRow(p, t, k - 1) then 1 else 0);
    }
  }

  /** No patients, no rows filled. */
  lemma {:induction false} RowsSizeEmpty(patients: seq<Patient>, t: Date, k: nat)
    requires patients == []
    ensures RowsSize(patients, t, k) == 0
  {
    if k > 0 {
      RowsSizeEmpty(patients, t, k - 1);
    }
  }

  /**
   * The ten rows hold every living patient exactly once: the score lies
   * between 0 and 9, so no living patient falls outside the rows.
   */
  lemma {:induction false} RowsCoverTheLiving(patients: seq<Patient>, t: Date)
    ensures RowsSize(patients, t, 10) == AliveCount(patients, t)
  {
    if patients == [] {
      RowsSizeEmpty(patients, t, 10);
    } else {
      RowsCoverTheLiving(patients[..|patients| - 1], t);
      RowsSizeSnoc(patients, t, 10);
      assert patients[|patients| - 1].Score(t) <= 9;
    }
  }

  /** Never more living patients than patients. */
  lemma {:induction false} AliveCountBound(patients: seq<Patient>, t: Date)
    ensures AliveCount(patients, t) <= |patients|
  {
    if patients != [] {
      AliveCountBound(patients[..|patients| - 1], t);
    }
  }

  /** Rows `0..k-1` that are all non-empty hold at least `k` ages between them. */
  lemma {:induction false} FilledRowsSize(patients: seq<Patient>, t: Date, k: nat)
    requires forall s :: 0 <= s < k ==> RowAges(patients, t, s) != []
    ensures RowsSize(patients, t, k) >= k
  {
    if k > 0 {
      FilledRowsSize(patients, t, k - 1);
    }
  }

  /**
   * The `% Female` column divides by the length of every row, so `breakdown`
   * gets past it only when each score 0..9 has a living patient; then at
   * least ten patients are alive, and the division by the patient count
   * that follows cannot fail. So `breakdown` raises exactly when some score
   * 0..9 has no living patient, an empty cohort included.
   */
  lemma FilledRowsNeedTenPatients(patients: seq<Patient>, t: Date)
    requires forall s :: 0 <= s < 10 ==> RowAges(patients, t, s) != []
    ensures 10 <= AliveCount(patients, t) <= |patients|
  {
    FilledRowsSize(patients, t, 10);
    RowsCoverTheLiving(patients, t);
    AliveCountBound(patients, t);
  }

  /** Ten fresh, empty, distinct rows: `{i: BreakdownRow() for i in range(10)}`. */
  method EmptyRows() returns (rows: seq<BreakdownRow>)
    ensures |rows| == 10
    ensures forall s :: 0 <= s < 10 ==> fresh(rows[s]) && rows[s].Valid() && rows[s].ages == [] && rows[s].femaleCount == 0
    ensures forall a, b :: 0 <= a < b < 10 ==> rows[a] != rows[b]
  {
    rows := [];
    for i := 0 to 10
      invariant |rows| == i
      invariant forall s :: 0 <= s < i ==> fresh(rows[s]) && rows[s].Valid() && rows[s].ages == [] && rows[s].femaleCount == 0
      invariant forall a, b :: 0 <= a < b < i ==> rows[a] != rows[b]
    {
      var row := new BreakdownRow();
      rows := rows + [row];
    }
  }

  /**
   * The loop body of `breakdown` for the last patient: it is counted, and
   * counted as female when it is; then, when alive, it is added to the row
   * of its score.
   */
  method CountPatient(rows: seq<BreakdownRow>, patients: seq<Patient>, t: Date, patientCount: nat, femaleCount: nat)
    returns (newPatientCount: nat, newFemaleCount: nat)
    requires patients != [] && |rows| == 10 && forall a, b :: 0 <= a < b < 10 ==> rows[a] != rows[b]
    requires patientCount == |patients| - 1 && femaleCount == FemaleCount(patients[..|patients| - 1])
    requires forall s :: 0 <= s < 10 ==> rows[s].Valid()
    requires forall s :: 0 <= s < 10 ==>
               rows[s].ages == RowAges(patients[..|patients| - 1], t, s) && rows[s].femaleCount == RowFemales(patients[..|patients| - 1], t, s)
    modifies set s | 0 <= s < 10 :: rows[s]
    ensures newPatientCount == |patients| && newFemaleCount == FemaleCount(patients)
    ensures forall s :: 0 <= s < 10 ==> rows[s].Valid()
    ensures forall s :: 0 <= s < 10 ==> rows[s].ages == RowAges(patients, t, s) && rows[s].femaleCount == RowFemales(patients, t, s)
  {
    var p := patients[|patients| - 1];
    newPatientCount, newFemaleCount := patientCount + 1, femaleCount;
    if IsFemale(p.sex) {
      newFemaleCount := newFemaleCount + 1;
    }
    assert newFemaleCount == FemaleCount(patients);
    if !p.queries.isAlive(t) {
      return;
    }
    var score := p.Score(t);
    rows[score].Update(CalculateAge(p.birthDate, t), IsFemale(p.sex));
  }

  /**
   * `breakdown(patients, timestamp)` without its printing: the patient and
   * female counts over all patients, and the rows by score of the living.
   */
  method Breakdown(patients: seq<Patient>, t: Date) returns (patientCount: nat, femaleCount: nat, rows: seq<BreakdownRow>)
    ensures patientCount == |patients| && femaleCount == FemaleCount(patients)
    ensures |rows| == 10 && forall a, b :: 0 <= a < b < 10 ==> rows[a] != rows[b]
    ensures forall s :: 0 <= s < 10 ==> fresh(rows[s]) && rows[s].Valid()
    ensures forall s :: 0 <= s < 10 ==> rows[s].ages == RowAges(patients, t, s) && rows[s].femaleCount == RowFemales(patients, t, s)
  {
    patientCount, femaleCount := 0, 0;
    rows := EmptyRows();
    for j := 0 to |patients|
      invariant patientCount == j && femaleCount == FemaleCount(patients[..j])
      invariant forall s :: 0 <= s < 10 ==> fresh(rows[s]) && rows[s].Valid()
      invariant forall s :: 0 <= s < 10 ==> rows[s].ages == RowAges(patients[..j], t, s) && rows[s].femaleCount == RowFemales(patients[..j], t, s)
    {
      assert patients[..j + 1][..j] == patients[..j];
      patientCount, femaleCount := CountPatient(rows, patients[..j + 1], t, patientCount, femaleCount);
    }
    assert patients[..|patients|] == patients;
  }
}
