/**
 * The atrial-fibrillation codes select the cohort; they never score. The
 * five score tables share no entry either. Each comparison is kept to one
 * table or one specialism's part of the V table.
 */
module DiseaseGroupsDisjoint {
  import opened Diseases
  import opened DiseaseGroups

  /** Two tables list no common (specialism, code) pair. */
  predicate Apart(a: seq<Disease>, b: seq<Disease>)
  {
    forall i, j :: 0 <= i < |a| && 0 <= j < |b| ==> a[i].Id() != b[j].Id()
  }

  lemma AtrialFibApartFromHeartFailureHypertension()
    ensures Apart(AtrialFib, ChadsVascC) && Apart(AtrialFib, ChadsVascH)
  {
  }

  lemma AtrialFibApartFromDiabetes()
    ensures Apart(AtrialFib, ChadsVascD)
  {
  }

  lemma AtrialFibApartFromStroke()
    ensures Apart(AtrialFib, ChadsVascS)
  {
  }

  lemma AtrialFibApartFromCardiologyVascular()
    ensures Apart(AtrialFib, VascularCar)
  {
  }

  lemma AtrialFibApartFromSurgeryVascular()
    ensures Apart(AtrialFib, VascularChi) && Apart(AtrialFib, VascularAne)
  {
  }

  lemma AtrialFibApartFromPhysiotherapyVascular()
    ensures Apart(AtrialFib, VascularFys) && Apart(AtrialFib, VascularLon)
  {
  }

  lemma AtrialFibApartFromOtherVascular()
    ensures Apart(AtrialFib, VascularGer) && Apart(AtrialFib, VascularInt) && Apart(AtrialFib, VascularRev)
  {
  }

  /** A table apart from every specialism's part of the V table is apart from the V table. */
  lemma ApartFromVascular(t: seq<Disease>)
    requires Apart(t, VascularAne) && Apart(t, VascularCar) && Apart(t, VascularChi) && Apart(t, VascularFys)
    requires Apart(t, VascularGer) && Apart(t, VascularInt) && Apart(t, VascularLon) && Apart(t, VascularRev)
    ensures Apart(t, ChadsVascV)
  {
  }

  /** Neither atrial-fibrillation code appears in any of the five score tables. */
  lemma AtrialFibNotScored()
    ensures Apart(AtrialFib, ChadsVascC) && Apart(AtrialFib, ChadsVascH) && Apart(AtrialFib, ChadsVascD)
    ensures Apart(AtrialFib, ChadsVascS) && Apart(AtrialFib, ChadsVascV)
  {
    AtrialFibApartFromHeartFailureHypertension();
    AtrialFibApartFromDiabetes();
    AtrialFibApartFromStroke();
    AtrialFibApartFromCardiologyVascular();
    AtrialFibApartFromSurgeryVascular();
    AtrialFibApartFromPhysiotherapyVascular();
    AtrialFibApartFromOtherVascular();
    ApartFromVascular(AtrialFib);
  }

  /** The heart-failure, hypertension, diabetes and stroke tables share no pair, taken two at a time. */
  lemma HeartFailureApartFromHypertension()
    ensures Apart(ChadsVascC, ChadsVascH)
  {
  }

  lemma HeartFailureApartFromDiabetes()
    ensures Apart(ChadsVascC, ChadsVascD)
  {
  }

  lemma HeartFailureApartFromStroke()
    ensures Apart(ChadsVascC, ChadsVascS)
  {
  }

  lemma HypertensionApartFromDiabetes()
    ensures Apart(ChadsVascH, ChadsVascD)
  {
  }

  lemma HypertensionApartFromStroke()
    ensures Apart(ChadsVascH, ChadsVascS)
  {
  }

  lemma DiabetesApartFromStroke()
    ensures Apart(ChadsVascD, ChadsVascS)
  {
  }

  lemma HeartFailureApartFromAne()
    ensures Apart(ChadsVascC, VascularAne)
  {
  }

  lemma HeartFailureApartFromCar()
    ensures Apart(ChadsVascC, VascularCar)
  {
  }

  lemma HeartFailureApartFromChi()
    ensures Apart(ChadsVascC, VascularChi)
  {
  }

  lemma HeartFailureApartFromFys()
    ensures Apart(ChadsVascC, VascularFys)
  {
  }

  lemma HeartFailureApartFromGer()
    ensures Apart(ChadsVascC, VascularGer)
  {
  }

  lemma HeartFailureApartFromInt()
    ensures Apart(ChadsVascC, VascularInt)
  {
  }

  lemma HeartFailureApartFromLon()
    ensures Apart(ChadsVascC, VascularLon)
  {
  }

  lemma HeartFailureApartFromRev()
    ensures Apart(ChadsVascC, VascularRev)
  {
  }

  /** No entry of the C table is in the V table. */
  lemma HeartFailureApartFromVascular()
    ensures Apart(ChadsVascC, ChadsVascV)
  {
    HeartFailureApartFromAne();
    HeartFailureApartFromCar();
    HeartFailureApartFromChi();
    HeartFailureApartFromFys();
    HeartFailureApartFromGer();
    HeartFailureApartFromInt();
    HeartFailureApartFromLon();
    HeartFailureApartFromRev();
    ApartFromVascular(ChadsVascC);
  }

  lemma HypertensionApartFromAne()
    ensures Apart(ChadsVascH, VascularAne)
  {
  }

  lemma HypertensionApartFromCar()
    ensures Apart(ChadsVascH, VascularCar)
  {
  }

  lemma HypertensionApartFromChi()
    ensures Apart(ChadsVascH, VascularChi)
  {
  }

  lemma HypertensionApartFromFys()
    ensures Apart(ChadsVascH, VascularFys)
  {
  }

  lemma HypertensionApartFromGer()
    ensures Apart(ChadsVascH, VascularGer)
  {
  }

  lemma HypertensionApartFromInt()
    ensures Apart(ChadsVascH, VascularInt)
  {
  }

  lemma HypertensionApartFromLon()
    ensures Apart(ChadsVascH, VascularLon)
  {
  }

  lemma HypertensionApartFromRev()
    ensures Apart(ChadsVascH, VascularRev)
  {
  }

  /** No entry of the H table is in the V table. */
  lemma HypertensionApartFromVascular()
    ensures Apart(ChadsVascH, ChadsVascV)
  {
    HypertensionApartFromAne();
    HypertensionApartFromCar();
    HypertensionApartFromChi();
    HypertensionApartFromFys();
    HypertensionApartFromGer();
    HypertensionApartFromInt();
    HypertensionApartFromLon();
    HypertensionApartFromRev();
    ApartFromVascular(ChadsVascH);
  }

  lemma DiabetesApartFromAne()
    ensures Apart(ChadsVascD, VascularAne)
  {
  }

  lemma DiabetesApartFromCar()
    ensures Apart(ChadsVascD, VascularCar)
  {
  }

  lemma DiabetesApartFromChi()
    ensures Apart(ChadsVascD, VascularChi)
  {
  }

  lemma DiabetesApartFromFys()
    ensures Apart(ChadsVascD, VascularFys)
  {
  }

  lemma DiabetesApartFromGer()
    ensures Apart(ChadsVascD, VascularGer)
  {
  }

  lemma DiabetesApartFromInt()
    ensures Apart(ChadsVascD, VascularInt)
  {
  }

  lemma DiabetesApartFromLon()
    ensures Apart(ChadsVascD, VascularLon)
  {
  }

  lemma DiabetesApartFromRev()
    ensures Apart(ChadsVascD, VascularRev)
  {
  }

  /** No entry of the D table is in the V table. */
  lemma DiabetesApartFromVascular()
    ensures Apart(ChadsVascD, ChadsVascV)
  {
    DiabetesApartFromAne();
    DiabetesApartFromCar();
    DiabetesApartFromChi();
    DiabetesApartFromFys();
    DiabetesApartFromGer();
    DiabetesApartFromInt();
    DiabetesApartFromLon();
    DiabetesApartFromRev();
    ApartFromVascular(ChadsVascD);
  }

  lemma StrokeApartFromAne()
    ensures Apart(ChadsVascS, VascularAne)
  {
  }

  lemma StrokeApartFromCar()
    ensures Apart(ChadsVascS, VascularCar)
  {
  }

  lemma StrokeApartFromChi()
    ensures Apart(ChadsVascS, VascularChi)
  {
  }

  lemma StrokeApartFromFys()
    ensures Apart(ChadsVascS, VascularFys)
  {
  }

  lemma StrokeApartFromGer()
    ensures Apart(ChadsVascS, VascularGer)
  {
  }

  lemma StrokeApartFromInt()
    ensures Apart(ChadsVascS, VascularInt)
  {
  }

  lemma StrokeApartFromLon()
    ensures Apart(ChadsVascS, VascularLon)
  {
  }

  lemma StrokeApartFromRev()
    ensures Apart(ChadsVascS, VascularRev)
  {
  }

  /** No entry of the S table is in the V table. */
  lemma StrokeApartFromVascular()
    ensures Apart(ChadsVascS, ChadsVascV)
  {
    StrokeApartFromAne();
    StrokeApartFromCar();
    StrokeApartFromChi();
    StrokeApartFromFys();
    StrokeApartFromGer();
    StrokeApartFromInt();
    StrokeApartFromLon();
    StrokeApartFromRev();
    ApartFromVascular(ChadsVascS);
  }

  /**
   * No (specialism, code) pair is in two of the five score tables, so a
   * diagnosis earns points through one score group at most.
   */
  lemma ScoreTablesPairwiseApart()
    ensures Apart(ChadsVascC, ChadsVascH) && Apart(ChadsVascC, ChadsVascD) && Apart(ChadsVascC, ChadsVascS)
    ensures Apart(ChadsVascH, ChadsVascD) && Apart(ChadsVascH, ChadsVascS) && Apart(ChadsVascD, ChadsVascS)
    ensures Apart(ChadsVascC, ChadsVascV) && Apart(ChadsVascH, ChadsVascV) && Apart(ChadsVascD, ChadsVascV)
    ensures Apart(ChadsVascS, ChadsVascV)
  {
    HeartFailureApartFromHypertension();
    HeartFailureApartFromDiabetes();
    HeartFailureApartFromStroke();
    HypertensionApartFromDiabetes();
    HypertensionApartFromStroke();
    DiabetesApartFromStroke();
    HeartFailureApartFromVascular();
    HypertensionApartFromVascular();
    DiabetesApartFromVascular();
    StrokeApartFromVascular();
  }
}
