/**
 * The counting part of learning/confusion_matrix.py: the length check of the
 * constructor, the four tallies of `calculate_matrix` and the population.
 * Labels are arbitrary integers; a position that is neither (1, 1), (0, 0)
 * nor (1, 0) counts as a false positive.
 */
module ConfusionMatrices {
  import opened Wrappers

  /** `(t_p, f_n, f_p, t_n)`, the tuple the constructor stores as `basic`. */
  datatype Tallies = Tallies(tp: nat, fn: nat, fp: nat, tn: nat)

  /** The four cells of the matrix. */
  datatype Kind = TruePositive | FalseNegative | FalsePositive | TrueNegative

  /**
   * The cell one position is counted in, by the branches of
   * `calculate_matrix`: a true positive exactly for (1, 1), a true negative
   * for (0, 0), a false negative for (1, 0), and a false positive otherwise,
   * whatever other values the labels take.
   */
  function KindOf(t: int, p: int): (k: Kind)
    ensures k == TruePositive <==> t == 1 && p == 1
    ensures k == TrueNegative <==> t == 0 && p == 0
    ensures k == FalseNegative <==> t == 1 && p == 0
    ensures k == FalsePositive <==> !(t == 1 && p == 1) && !(t == 0 && p == 0) && !(t == 1 && p == 0)
  {
    if t == p && p == 1 then TruePositive
    else if t == p && p == 0 then TrueNegative
    else if t == 1 && p == 0 then FalseNegative
    else FalsePositive
  }

  /** The number of the first `n` positions counted in cell `k`. */
  function CountUpTo(truth: seq<int>, predict: seq<int>, n: nat, k: Kind): nat
    requires n <= |truth| == |predict|
  {
    if n == 0 then 0
    else CountUpTo(truth, predict, n - 1, k) + (if KindOf(truth[n - 1], predict[n - 1]) == k then 1 else 0)
  }

  /** The tallies of the first `n` positions. */
  function MatrixUpTo(truth: seq<int>, predict: seq<int>, n: nat): Tallies
    requires n <= |truth| == |predict|
  {
    Tallies(CountUpTo(truth, predict, n, TruePositive), CountUpTo(truth, predict, n, FalseNegative),
            CountUpTo(truth, predict, n, FalsePositive), CountUpTo(truth, predict, n, TrueNegative))
  }

  /** The tallies of all positions. */
  function Matrix(truth: seq<int>, predict: seq<int>): (m: Tallies)
    requires |truth| == |predict|
    ensures Population(m) == |truth|
  {
    PopulationIsLength(truth, predict, |truth|);
    MatrixUpTo(truth, predict, |truth|)
  }

  /** The tallies add up: `population = t_p + f_n + f_p + t_n`. */
  function Population(m: Tallies): nat
  {
    m.tp + m.fn + m.fp + m.tn
  }

  /** The number of positions among the first `n` where the labels agree. */
  function AgreementsUpTo(truth: seq<int>, predict: seq<int>, n: nat): nat
    requires n <= |truth| == |predict|
  {
    if n == 0 then 0
    else AgreementsUpTo(truth, predict, n - 1) + (if truth[n - 1] == predict[n - 1] then 1 else 0)
  }

  /** The number of 1s among the first `n` true labels. */
  function PositivesUpTo(truth: seq<int>, n: nat): nat
    requires n <= |truth|
  {
    if n == 0 then 0
    else PositivesUpTo(truth, n - 1) + (if truth[n - 1] == 1 then 1 else 0)
  }

  /** Every label is 0 or 1. */
  predicate Binary(labels: seq<int>)
  {
    forall i :: 0 <= i < |labels| ==> labels[i] == 0 || labels[i] == 1
  }

  /** Every position is counted exactly once: the population is the input length. */
  lemma {:induction false} PopulationIsLength(truth: seq<int>, predict: seq<int>, n: nat)
    requires n <= |truth| == |predict|
    ensures Population(MatrixUpTo(truth, predict, n)) == n
  {
    if n > 0 {
      PopulationIsLength(truth, predict, n - 1);
    }
  }

  /** With 0/1 labels, true positives and true negatives are the positions where the labels agree. */
  lemma {:induction false} AgreementsAreTrueCounts(truth: seq<int>, predict: seq<int>, n: nat)
    requires n <= |truth| == |predict| && Binary(truth) && Binary(predict)
    ensures MatrixUpTo(truth, predict, n).tp + MatrixUpTo(truth, predict, n).tn == AgreementsUpTo(truth, predict, n)
  {
    if n > 0 {
      AgreementsAreTrueCounts(truth, predict, n - 1);
      assert truth[n - 1] == 0 || truth[n - 1] == 1;
      assert predict[n - 1] == 0 || predict[n - 1] == 1;
    }
  }

  /** With 0/1 predictions, true positives and false negatives are the 1s of the true labels. */
  lemma {:induction false} PositivesAreTpPlusFn(truth: seq<int>, predict: seq<int>, n: nat)
    requires n <= |truth| == |predict| && Binary(predict)
    ensures MatrixUpTo(truth, predict, n).tp + MatrixUpTo(truth, predict, n).fn == PositivesUpTo(truth, n)
  {
    if n > 0 {
      PositivesAreTpPlusFn(truth, predict, n - 1);
      assert predict[n - 1] == 0 || predict[n - 1] == 1;
    }
  }

  /** `calculate_matrix`: one pass over the positions, incrementing one of four counters each. */
  method CalculateMatrix(truth: seq<int>, predict: seq<int>) returns (m: Tallies)
    requires |truth| == |predict|
    ensures m == Matrix(truth, predict)
    ensures Population(m) == |truth|
  {
    var tp, fn, fp, tn := 0, 0, 0, 0;
    for i := 0 to |truth|
      invariant tp == CountUpTo(truth, predict, i, TruePositive) && fn == CountUpTo(truth, predict, i, FalseNegative)
      invariant fp == CountUpTo(truth, predict, i, FalsePositive) && tn == CountUpTo(truth, predict, i, TrueNegative)
    {
      var t := truth[i];
      var p := predict[i];
      if t == p && p == 1 {
        tp := tp + 1;
      } else if t == p && p == 0 {
        tn := tn + 1;
      } else if t == 1 && p == 0 {
        fn := fn + 1;
      } else {
        fp := fp + 1;
      }
    }
    m := Tallies(tp, fn, fp, tn);
    PopulationIsLength(truth, predict, |truth|);
  }

  /** The counting fields of a constructed matrix. */
  datatype ConfusionMatrix = ConfusionMatrix(truth: seq<int>, predict: seq<int>, name: Option<string>, basic: Tallies, population: nat)

  /** `Exception("Data/Target length mismatch")`. */
  datatype MatrixError = LengthMismatch

  /**
   * `ConfusionMatrix(true, predict, name)`: raises when the lengths differ;
   * otherwise stores the tallies as `basic` and their sum, the input length,
   * as `population`.
   */
  method NewConfusionMatrix(truth: seq<int>, predict: seq<int>, name: Option<string>) returns (r: Result<ConfusionMatrix, MatrixError>)
    ensures r.Failure? <==> |truth| != |predict|
    ensures r.Success? ==> r.value.truth == truth && r.value.predict == predict && r.value.name == name
    ensures r.Success? ==> r.value.basic == Matrix(truth, predict) && r.value.population == |truth|
  {
    if |truth| != |predict| {
      return Failure(LengthMismatch);
    }
    var m := CalculateMatrix(truth, predict);
    return Success(ConfusionMatrix(truth, predict, name, m, Population(m)));
  }

  /**
   * The fixture of the tests, `true = [0, 0, 0, 1, 1, 1, 1, 1, 1, 1]` and
   * `pred = [0, 1, 1, 1, 1, 1, 0, 0, 0, 0]`: three true positives, four
   * false negatives, two false positives and one true negative.
   */
  lemma MatrixFixture(t: seq<int>, p: seq<int>)
    requires |t| == |p| == 10
    requires t[0] == 0 && t[1] == 0 && t[2] == 0 && t[3] == 1 && t[4] == 1 && t[5] == 1 && t[6] == 1 && t[7] == 1 && t[8] == 1 && t[9] == 1
    requires p[0] == 0 && p[1] == 1 && p[2] == 1 && p[3] == 1 && p[4] == 1 && p[5] == 1 && p[6] == 0 && p[7] == 0 && p[8] == 0 && p[9] == 0
    ensures Matrix(t, p) == Tallies(3, 4, 2, 1)
  {
    assert CountUpTo(t, p, 1, TruePositive) == 0;
    assert CountUpTo(t, p, 2, TruePositive) == 0;
    assert CountUpTo(t, p, 3, TruePositive) == 0;
    assert CountUpTo(t, p, 4, TruePositive) == 1;
    assert CountUpTo(t, p, 5, TruePositive) == 2;
    assert CountUpTo(t, p, 6, TruePositive) == 3;
    assert CountUpTo(t, p, 7, TruePositive) == 3;
    assert CountUpTo(t, p, 8, TruePositive) == 3;
    assert CountUpTo(t, p, 9, TruePositive) == 3;
    assert CountUpTo(t, p, 1, FalseNegative) == 0;
    assert CountUpTo(t, p, 2, FalseNegative) == 0;
    assert CountUpTo(t, p, 3, FalseNegative) == 0;
    assert CountUpTo(t, p, 4, FalseNegative) == 0;
    assert CountUpTo(t, p, 5, FalseNegative) == 0;
    assert CountUpTo(t, p, 6, FalseNegative) == 0;
    assert CountUpTo(t, p, 7, FalseNegative) == 1;
    assert CountUpTo(t, p, 8, FalseNegative) == 2;
    assert CountUpTo(t, p, 9, FalseNegative) == 3;
    assert CountUpTo(t, p, 1, FalsePositive) == 0;
    assert CountUpTo(t, p, 2, FalsePositive) == 1;
    assert CountUpTo(t, p, 3, FalsePositive) == 2;
    assert CountUpTo(t, p, 4, FalsePositive) == 2;
    assert CountUpTo(t, p, 5, FalsePositive) == 2;
    assert CountUpTo(t, p, 6, FalsePositive) == 2;
    assert CountUpTo(t, p, 7, FalsePositive) == 2;
    assert CountUpTo(t, p, 8, FalsePositive) == 2;
    assert CountUpTo(t, p, 9, FalsePositive) == 2;
    assert CountUpTo(t, p, 1, TrueNegative) == 1;
    assert CountUpTo(t, p, 2, TrueNegative) == 1;
    assert CountUpTo(t, p, 3, TrueNegative) == 1;
    assert CountUpTo(t, p, 4, TrueNegative) == 1;
    assert CountUpTo(t, p, 5, TrueNegative) == 1;
    assert CountUpTo(t, p, 6, TrueNegative) == 1;
    assert CountUpTo(t, p, 7, TrueNegative) == 1;
    assert CountUpTo(t, p, 8, TrueNegative) == 1;
    assert CountUpTo(t, p, 9, TrueNegative) == 1;
  }
}
