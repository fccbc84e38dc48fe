/**
 * The feature-vector CHA2DS2-VASc score of examples/learning_test.py: five
 * disease flags (stroke first, weighing 2), a gender flag and an age, and
 * the threshold prediction over a matrix of such vectors.
 */
module LearningTest {
  import opened Wrappers
  import opened Dates
  import opened Timeline

  /** The weights of the disease flags: stroke first, then four single points. */
  const Weights: seq<int> := [2, 1, 1, 1, 1]

  /** `sum(a * b)` over two arrays of the same length. */
  function Dot(a: seq<int>, b: seq<int>): int
    requires |a| == |b|
  {
    if a == [] then 0 else Dot(a[..|a| - 1], b[..|b| - 1]) + a[|a| - 1] * b[|b| - 1]
  }

  /**
   * `sum(np.array(diseases) * np.array(weights))`: numpy multiplies arrays of
   * the same length element by element and broadcasts an array of length 1;
   * any other length is a `ValueError` (None).
   */
  function WeightedSum(diseases: seq<int>): (r: Option<int>)
    ensures r.Some? <==> |diseases| == 5 || |diseases| == 1
    ensures |diseases| == 5 ==> r == Some(2 * diseases[0] + diseases[1] + diseases[2] + diseases[3] + diseases[4])
    ensures |diseases| == 1 ==> r == Some(6 * diseases[0])
  {
    if |diseases| == 5 then
      DotOfFive(diseases, Weights);
      Some(Dot(diseases, Weights))
    else if |diseases| == 1 then
      DotOfFive([diseases[0], diseases[0], diseases[0], diseases[0], diseases[0]], Weights);
      Some(Dot([diseases[0], diseases[0], diseases[0], diseases[0], diseases[0]], Weights))
    else None
  }

  /** The product of the first `k + 1` entries adds entry `k` to that of the first `k`. */
  lemma DotSnoc(a: seq<int>, b: seq<int>, k: nat)
    requires k < |a| == |b|
    ensures Dot(a[..k + 1], b[..k + 1]) == Dot(a[..k], b[..k]) + a[k] * b[k]
  {
    assert a[..k + 1][..k] == a[..k] && b[..k + 1][..k] == b[..k];
  }

  /** The product of two five-element arrays, written out. */
  lemma DotOfFive(a: seq<int>, b: seq<int>)
    requires |a| == |b| == 5
    ensures Dot(a, b) == a[0] * b[0] + a[1] * b[1] + a[2] * b[2] + a[3] * b[3] + a[4] * b[4]
  {
    DotSnoc(a, b, 0);
    DotSnoc(a, b, 1);
    DotSnoc(a, b, 2);
    DotSnoc(a, b, 3);
    DotSnoc(a, b, 4);
    assert a[..5] == a && b[..5] == b;
  }

  /**
   * `calculate_chads_vasc(diseases, gender, age)`: the weighted disease
   * flags, one point at 65 to 74, two at 75 or older, and the gender value
   * as it is.
   */
  function FeatureScore(diseases: seq<int>, gender: int, age: int): (r: Option<int>)
    ensures r.Some? <==> WeightedSum(diseases).Some?
    ensures r.Some? ==> r.value == WeightedSum(diseases).value + AgePoints(age) + gender
  {
    match WeightedSum(diseases)
    case None => None
    case Some(s) => Some(s + (if 65 <= age < 75 then 1 else 0) + 2 * (if 75 <= age then 1 else 0) + gender)
  }

  /** A 0/1 flag. */
  predicate IsFlag(x: int)
  {
    x == 0 || x == 1
  }

  /** With five 0/1 disease flags and a 0/1 gender, the score lies between 0 and 9. */
  lemma FeatureScoreBounds(diseases: seq<int>, gender: int, age: int)
    requires |diseases| == 5 && (forall i :: 0 <= i < 5 ==> IsFlag(diseases[i])) && IsFlag(gender)
    ensures FeatureScore(diseases, gender, age).Some?
    ensures 0 <= FeatureScore(diseases, gender, age).value <= 9
  {
    assert IsFlag(diseases[0]) && IsFlag(diseases[1]) && IsFlag(diseases[2]) && IsFlag(diseases[3]) && IsFlag(diseases[4]);
  }

  /** The flag numpy makes of a boolean. */
  function Flag(b: bool): int
  {
    if b then 1 else 0
  }

  /**
   * The feature-vector score is the patient score: with the stroke flag
   * first, the other four groups after it, the female flag as gender and the
   * patient's age, it equals `calculate_chads_vasc` over the same groups.
   */
  lemma FeatureScoreIsPatientScore(groups: ScoreGroups, lists: DiagnosisLists, birth: Date, sex: string, t: Date)
    ensures var diseases := [Flag(GroupPresent(lists, groups.stroke, t)), Flag(GroupPresent(lists, groups.heartFailure, t)),
                             Flag(GroupPresent(lists, groups.hypertension, t)), Flag(GroupPresent(lists, groups.diabetes, t)),
                             Flag(GroupPresent(lists, groups.vascular, t))];
            FeatureScore(diseases, Flag(IsFemale(sex)), CalculateAge(birth, t)) == Some(ScoreWith(groups, lists, birth, sex, t))
  {
  }

  /**
   * One step of `chads_vasc_prediction`: `vector[:5]` as the diseases,
   * `vector[-1]` as the age and `vector[-2]` as the gender; None when the
   * vector is too short to index or to multiply.
   */
  function VectorPrediction(vector: seq<int>): (r: Option<bool>)
    ensures r.Some? <==> 5 <= |vector|
    ensures r.Some? ==> r.value == (FeatureScore(vector[..5], vector[|vector| - 2], vector[|vector| - 1]).value >= 3)
  {
    var diseases := if |vector| <= 5 then vector else vector[..5];
    if |vector| < 2 then None
    else
      var age := vector[|vector| - 1];
      var gender := vector[|vector| - 2];
      match FeatureScore(diseases, gender, age)
      case None => None
      case Some(score) => Some(score >= 3)
  }

  /** The layout of `create_data`, `diseases + [gender, age]`, is the one the prediction reads. */
  lemma PredictionReadsCreateDataLayout(diseases: seq<int>, gender: int, age: int)
    requires |diseases| == 5
    ensures VectorPrediction(diseases + [gender, age]) == Some(FeatureScore(diseases, gender, age).value >= 3)
  {
    var v := diseases + [gender, age];
    assert v[..5] == diseases;
  }

  /** The predictions of the vectors in order, or None when one of them cannot be scored. */
  function Predictions(matrix: seq<seq<int>>): (r: Option<seq<bool>>)
  {
    if matrix == [] then Some([])
    else
      match Predictions(matrix[..|matrix| - 1])
      case None => None
      case Some(ps) =>
        match VectorPrediction(matrix[|matrix| - 1])
        case None => None
        case Some(p) => Some(ps + [p])
  }

  /** Every vector is predicted, one prediction each, exactly when every vector has at least five entries. */
  lemma {:induction false} PredictionsShape(matrix: seq<seq<int>>)
    ensures Predictions(matrix).Some? <==> forall i :: 0 <= i < |matrix| ==> 5 <= |matrix[i]|
    ensures Predictions(matrix).Some? ==>
              |Predictions(matrix).value| == |matrix|
              && forall i :: 0 <= i < |matrix| ==> Some(Predictions(matrix).value[i]) == VectorPrediction(matrix[i])
  {
    if matrix != [] {
      var n := |matrix| - 1;
      PredictionsShape(matrix[..n]);
      assert forall i :: 0 <= i < n ==> matrix[..n][i] == matrix[i];
    }
  }

  /** `chads_vasc_prediction`: the loop appending one prediction per vector. */
  method ChadsVascPrediction(matrix: seq<seq<int>>) returns (r: Option<seq<bool>>)
    ensures r == Predictions(matrix)
  {
    var predictions := [];
    for i := 0 to |matrix|
      invariant Predictions(matrix[..i]) == Some(predictions)
    {
      assert matrix[..i + 1][..i] == matrix[..i];
      var p := VectorPrediction(matrix[i]);
      if p.None? {
        PredictionsNoneAfter(matrix, i + 1);
        return None;
      }
      predictions := predictions + [p.value];
    }
    assert matrix[..|matrix|] == matrix;
    return Some(predictions);
  }

  /** Once a prefix fails, so does every longer prefix. */
  lemma {:induction false} PredictionsNoneAfter(matrix: seq<seq<int>>, n: nat)
    requires n <= |matrix| && Predictions(matrix[..n]).None?
    ensures Predictions(matrix).None?
    decreases |matrix| - n
  {
    if n < |matrix| {
      assert matrix[..n + 1][..n] == matrix[..n];
      PredictionsNoneAfter(matrix, n + 1);
    } else {
      assert matrix[..n] == matrix;
    }
  }
}
