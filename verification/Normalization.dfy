/**
 Naive Bayes scores and their rounding to an exact distribution. Posteriors are
 exact rationals; the published probabilities are whole numbers of quanta.
 */
module Normalization {
  import opened Outcomes

  /** Quanta in a probability of one: twelve decimal places. */
  const ONE := 1_000_000_000_000

  datatype ModelError = NoMass

  // ---- Scores ----

  /** One feature's evidence for one class: the count seen, and the class's smoothed total. */
  datatype Likelihood = Likelihood(count: nat, vocabulary: nat)

  /** One class of the artifact: how often it was seen, and each feature's evidence. */
  datatype Class = Class(count: nat, features: seq<Likelihood>)

  function Smoothed(count: nat, total: nat, size: nat, alpha: real): (r: real)
    requires alpha > 0.0 && size >= 1
    ensures r > 0.0
  {
    Positive(total as real + alpha * size as real, count as real + alpha, alpha, size);
    (count as real + alpha) / (total as real + alpha * size as real)
  }

  lemma Positive(below: real, above: real, alpha: real, size: nat)
    requires alpha > 0.0 && size >= 1 && above > 0.0 && below >= alpha * size as real
    ensures below > 0.0 && above / below > 0.0
  {
    assert alpha * size as real > 0.0;
  }

  predicate Schema(c: Class) {
    forall i | 0 <= i < |c.features| :: c.features[i].vocabulary >= 1
  }

  /** Prior times the first `n` likelihoods. */
  function Score(c: Class, samples: nat, classes: nat, alpha: real, n: nat): (r: real)
    requires alpha > 0.0 && classes >= 1 && n <= |c.features| && Schema(c)
    ensures r > 0.0
    decreases n
  {
    if n == 0 then Smoothed(c.count, samples, classes, alpha)
    else
      var before := Score(c, samples, classes, alpha, n - 1);
      var f := c.features[n - 1];
      Product(before, Smoothed(f.count, c.count, f.vocabulary, alpha));
      before * Smoothed(f.count, c.count, f.vocabulary, alpha)
  }

  lemma Product(a: real, b: real)
    requires a > 0.0 && b > 0.0
    ensures a * b > 0.0
  {}

  /** The scores as they are accumulated, one running product a class; every score is positive. */
  method UnnormalizedScores(classes: seq<Class>, samples: nat, alpha: real) returns (scores: seq<real>)
    requires alpha > 0.0 && forall i | 0 <= i < |classes| :: Schema(classes[i])
    ensures |scores| == |classes|
    ensures forall i | 0 <= i < |classes| ::
              scores[i] == Score(classes[i], samples, |classes|, alpha, |classes[i].features|) > 0.0
  {
    scores := [];
    for k := 0 to |classes|
      invariant |scores| == k
      invariant forall i | 0 <= i < k ::
                  scores[i] == Score(classes[i], samples, |classes|, alpha, |classes[i].features|) > 0.0
    {
      var c := classes[k];
      var score := Smoothed(c.count, samples, |classes|, alpha);
      for n := 0 to |c.features|
        invariant score == Score(c, samples, |classes|, alpha, n)
      {
        score := score * Smoothed(c.features[n].count, c.count, c.features[n].vocabulary, alpha);
      }
      scores := scores + [score];
    }
  }

  // ---- Rounding ----

  /** To the nearest integer, ties to even. */
  function HalfEven(x: real): int {
    var floor := x.Floor;
    var rest := x - floor as real;
    if rest < 0.5 then floor else if rest > 0.5 then floor + 1 else if floor % 2 == 0 then floor else floor + 1
  }

  function Total(scores: seq<real>, n: nat): real
    requires n <= |scores|
  {
    if n == 0 then 0.0 else Total(scores, n - 1) + scores[n - 1]
  }

  function Sum(units: seq<int>, n: nat): int
    requires n <= |units|
  {
    if n == 0 then 0 else Sum(units, n - 1) + units[n - 1]
  }

  /** The exact posterior of class `i`, in quanta. */
  function Exact(scores: seq<real>, total: real, i: nat): real
    requires i < |scores| && total != 0.0
  {
    scores[i] / total * ONE as real
  }

  predicate Rounded(scores: seq<real>, total: real, units: seq<int>)
    requires total != 0.0
  {
    |units| == |scores| && forall i | 0 <= i < |scores| :: units[i] == HalfEven(Exact(scores, total, i))
  }

  /** The first of the largest. */
  predicate FirstLargest(units: seq<int>, w: nat) {
    && w < |units|
    && (forall i | 0 <= i < |units| :: units[i] <= units[w])
    && (forall i | 0 <= i < w :: units[i] < units[w])
  }

  method AddScores(scores: seq<real>) returns (total: real)
    ensures total == Total(scores, |scores|)
  {
    total := 0.0;
    for i := 0 to |scores|
      invariant total == Total(scores, i)
    {
      total := total + scores[i];
    }
  }

  method RoundScores(scores: seq<real>, total: real) returns (rounded: seq<int>)
    requires total > 0.0
    ensures Rounded(scores, total, rounded)
  {
    hide HalfEven;
    rounded := [];
    for i := 0 to |scores|
      invariant |rounded| == i
      invariant forall k | 0 <= k < i :: rounded[k] == HalfEven(Exact(scores, total, k))
    {
      rounded := rounded + [HalfEven(scores[i] / total * ONE as real)];
    }
  }

  method FindWinner(units: seq<int>) returns (w: nat)
    requires units != []
    ensures FirstLargest(units, w)
  {
    w := 0;
    for i := 1 to |units|
      invariant w < i && (forall k | 0 <= k < i :: units[k] <= units[w]) && forall k | 0 <= k < w :: units[k] < units[w]
    {
      if units[i] > units[w] { w := i; }
    }
  }

  method AddUnits(units: seq<int>) returns (sum: int)
    ensures sum == Sum(units, |units|)
  {
    sum := 0;
    for i := 0 to |units|
      invariant sum == Sum(units, i)
    {
      sum := sum + units[i];
    }
  }

  /** The rounded winner takes whatever is missing from one. */
  function Corrected(units: seq<int>, w: nat): seq<int>
    requires w < |units|
  {
    units[w := units[w] + (ONE - Sum(units, |units|))]
  }

  /** Rounds every posterior, then gives the winner the residual. */
  method Normalize(scores: seq<real>) returns (r: Result<seq<int>, ModelError>, ghost units: seq<int>, ghost w: nat)
    ensures r.Err? <==> Total(scores, |scores|) <= 0.0
    ensures scores != [] && (forall i | 0 <= i < |scores| :: scores[i] > 0.0) ==> r.Ok?
    ensures r.Ok? ==> && Rounded(scores, Total(scores, |scores|), units) && FirstLargest(units, w)
                      && r.value == Corrected(units, w)
  {
    hide Rounded, Total, FirstLargest, Sum;
    var total := AddScores(scores);
    if scores != [] && forall i | 0 <= i < |scores| :: scores[i] > 0.0 { PositiveScoresHaveMass(scores); }
    if total <= 0.0 { return Err(NoMass), [], 0; }
    NoScoresNoMass(scores);
    var rounded := RoundScores(scores, total);
    RoundedLength(scores, total, rounded);
    var winner := FindWinner(rounded);
    var sum := AddUnits(rounded);
    WinnerIndex(rounded, winner);
    return Ok(rounded[winner := rounded[winner] + (ONE - sum)]), rounded, winner;
  }

  lemma NoScoresNoMass(scores: seq<real>)
    ensures Total(scores, |scores|) > 0.0 ==> scores != []
  {}

  lemma RoundedLength(scores: seq<real>, total: real, units: seq<int>)
    requires total != 0.0 && Rounded(scores, total, units)
    ensures |units| == |scores|
  {}

  lemma WinnerIndex(units: seq<int>, w: nat)
    requires FirstLargest(units, w)
    ensures w < |units|
  {}

  // ---- Exactness and bounds ----

  predicate Normalized(scores: seq<real>, units: seq<int>, w: nat, result: seq<int>) {
    && |scores| >= 1 && (forall i | 0 <= i < |scores| :: scores[i] > 0.0)
    && Total(scores, |scores|) > 0.0
    && Rounded(scores, Total(scores, |scores|), units) && FirstLargest(units, w)
    && result == Corrected(units, w)
  }

  lemma {:induction false} TotalPositive(scores: seq<real>, n: nat)
    requires n <= |scores| && forall i | 0 <= i < |scores| :: scores[i] > 0.0
    ensures Total(scores, n) >= 0.0 && (n >= 1 ==> Total(scores, n) > 0.0)
  {
    if n > 0 { TotalPositive(scores, n - 1); }
  }

  /** Positive scores always normalize. */
  lemma PositiveScoresHaveMass(scores: seq<real>)
    requires |scores| >= 1 && forall i | 0 <= i < |scores| :: scores[i] > 0.0
    ensures Total(scores, |scores|) > 0.0
  {
    TotalPositive(scores, |scores|);
  }

  lemma {:induction false} SumUpdate(units: seq<int>, w: nat, v: int, n: nat)
    requires w < |units| && n <= |units|
    ensures Sum(units[w := v], n) == Sum(units, n) + (if w < n then v - units[w] else 0)
  {
    if n > 0 { SumUpdate(units, w, v, n - 1); }
  }

  /** The published probabilities sum to exactly one. */
  lemma SumsToOne(scores: seq<real>, units: seq<int>, w: nat, result: seq<int>)
    requires Normalized(scores, units, w, result)
    ensures |result| == |scores| && Sum(result, |result|) == ONE
  {
    hide HalfEven, Exact;
    SumUpdate(units, w, units[w] + (ONE - Sum(units, |units|)), |units|);
  }

  lemma HalfEvenNear(x: real)
    ensures -0.5 <= HalfEven(x) as real - x <= 0.5
  {}

  lemma DivideAdd(a: real, b: real, t: real)
    requires t != 0.0
    ensures (a + b) / t * ONE as real == a / t * ONE as real + b / t * ONE as real
  {
    assert (a + b) / t == a / t + b / t;
  }

  /** The sum over all classes but `w` of rounded minus exact quanta, up to class `n`. */
  function Gap(scores: seq<real>, total: real, units: seq<int>, w: nat, n: nat): real
    requires n <= |scores| == |units| && total != 0.0
  {
    if n == 0 then 0.0
    else Gap(scores, total, units, w, n - 1)
         + (if n - 1 == w then 0.0 else units[n - 1] as real - Exact(scores, total, n - 1))
  }

  lemma {:induction false} GapBound(scores: seq<real>, total: real, units: seq<int>, w: nat, n: nat)
    requires n <= |scores| && total != 0.0 && Rounded(scores, total, units) && w < |scores|
    ensures var others := if w < n then n - 1 else n;
      -(others as real) / 2.0 <= Gap(scores, total, units, w, n) <= others as real / 2.0
  {
    hide HalfEven, Exact;
    if n > 0 {
      GapBound(scores, total, units, w, n - 1);
      HalfEvenNear(Exact(scores, total, n - 1));
    }
  }

  /** Rounded sum minus exact sum is the gap plus the winner's own rounding. */
  lemma {:induction false} GapAccounts(scores: seq<real>, total: real, units: seq<int>, w: nat, n: nat)
    requires n <= |scores| == |units| && total != 0.0 && w < |scores|
    ensures Sum(units, n) as real - Total(scores, n) / total * ONE as real
         == Gap(scores, total, units, w, n) + (if w < n then units[w] as real - Exact(scores, total, w) else 0.0)
  {
    if n > 0 {
      GapAccounts(scores, total, units, w, n - 1);
      DivideAdd(Total(scores, n - 1), scores[n - 1], total);
    }
  }

  /** The exact posteriors add up to one, so the rounded ones miss it by the gap. */
  lemma RoundedSum(scores: seq<real>, units: seq<int>, w: nat)
    requires |units| == |scores| && w < |scores| && Total(scores, |scores|) > 0.0
    ensures var total := Total(scores, |scores|);
      Sum(units, |units|) as real - ONE as real
      == Gap(scores, total, units, w, |scores|) + (units[w] as real - Exact(scores, total, w))
  {
    hide Exact, Gap;
    var total := Total(scores, |scores|);
    GapAccounts(scores, total, units, w, |scores|);
    SelfShare(total);
  }

  lemma SelfShare(t: real)
    requires t > 0.0
    ensures t / t * ONE as real == ONE as real
  {}

  /** Every class but the winner is within half a quantum of its exact posterior, the winner within (n-1)/2. */
  lemma NearExact(scores: seq<real>, units: seq<int>, w: nat, result: seq<int>, i: nat)
    requires Normalized(scores, units, w, result) && i < |scores|
    ensures |result| == |scores|
    ensures var error := result[i] as real - Exact(scores, Total(scores, |scores|), i);
      var bound := if i == w then (|scores| - 1) as real / 2.0 else 0.5;
      -bound <= error <= bound
  {
    hide HalfEven, Exact, Gap, Sum, Total;
    var total := Total(scores, |scores|);
    if i == w {
      GapBound(scores, total, units, w, |scores|);
      RoundedSum(scores, units, w);
    } else {
      HalfEvenNear(Exact(scores, total, i));
    }
  }

  lemma {:induction false} TotalAtLeast(scores: seq<real>, i: nat, n: nat)
    requires i < n <= |scores| && forall k | 0 <= k < |scores| :: scores[k] > 0.0
    ensures scores[i] <= Total(scores, n)
  {
    TotalPositive(scores, n - 1);
    if i < n - 1 { TotalAtLeast(scores, i, n - 1); }
  }

  lemma ShareOfOne(a: real, t: real)
    requires 0.0 < a <= t
    ensures 0.0 <= a / t * ONE as real <= ONE as real
  {
    assert 0.0 <= a / t <= 1.0 by { DivideBound(a, t); }
  }

  lemma DivideBound(a: real, t: real)
    requires 0.0 < a <= t
    ensures 0.0 <= a / t <= 1.0
  {
    var q := a / t;
    assert q * t == a;
    assert q > 1.0 ==> (q - 1.0) * t > 0.0;
    assert q < 0.0 ==> q * t < 0.0;
  }

  lemma HalfEvenBounds(x: real, top: int)
    requires 0.0 <= x <= top as real
    ensures 0 <= HalfEven(x) <= top
  {}

  lemma UnitsInRange(scores: seq<real>, units: seq<int>, w: nat, result: seq<int>, i: nat)
    requires Normalized(scores, units, w, result) && i < |scores|
    ensures 0 <= units[i] <= ONE
  {
    hide HalfEven, Sum, Total, FirstLargest;
    TotalAtLeast(scores, i, |scores|);
    ShareOfOne(scores[i], Total(scores, |scores|));
    HalfEvenBounds(Exact(scores, Total(scores, |scores|), i), ONE);
  }

  lemma {:induction false} SumSpread(units: seq<int>, w: nat, n: nat)
    requires w < |units| && n <= |units| && forall i | 0 <= i < |units| :: 0 <= units[i] <= units[w]
    ensures (if w < n then units[w] else 0) <= Sum(units, n) <= n * units[w]
  {
    if n > 0 {
      SumSpread(units, w, n - 1);
      assert n * units[w] == (n - 1) * units[w] + units[w];
    }
  }

  /** With at least as many quanta as half the square of the classes, the corrected winner is a probability too. */
  lemma InRange(scores: seq<real>, units: seq<int>, w: nat, result: seq<int>, i: nat)
    requires Normalized(scores, units, w, result) && i < |scores| && |scores| * (|scores| - 1) <= 2 * ONE
    ensures |result| == |scores| && 0 <= result[i] <= ONE
  {
    hide HalfEven, Exact, Rounded, Sum, Total, Gap;
    UnitsInRangeLength(scores, units, w, result);
    if i != w {
      UnitsInRange(scores, units, w, result, i);
    } else {
      forall k | 0 <= k < |scores| ensures 0 <= units[k] { UnitsInRange(scores, units, w, result, k); }
      SumSpread(units, w, |units|);
      SumNearOne(scores, units, w, result);
      WinnerRange(|units|, units[w], Sum(units, |units|));
    }
  }

  /** Posteriors that all round up by half a quantum: `high` of them at 707105.5 quanta, the rest at 707103.5. */
  function Halves(classes: nat, high: nat): (scores: seq<real>)
    ensures |scores| == classes
  {
    seq(classes, i => if i < high then 707_105.5 else 707_103.5)
  }

  function RoundedHalves(classes: nat, high: nat): (units: seq<int>)
    ensures |units| == classes
  {
    seq(classes, i => if i < high then 707_106 else 707_104)
  }

  lemma {:induction false} HalvesTotal(classes: nat, high: nat, n: nat)
    requires n <= classes
    ensures Total(Halves(classes, high), n) == 707_103.5 * n as real + 2.0 * (if n < high then n else high) as real
    ensures Sum(RoundedHalves(classes, high), n) == 707_104 * n + 2 * (if n < high then n else high)
  {
    if n > 0 { HalvesTotal(classes, high, n - 1); }
  }

  lemma HalvesRoundUp()
    ensures HalfEven(707_105.5) == 707_106 && HalfEven(707_103.5) == 707_104
  {}

  lemma OfOne(x: real)
    ensures x / ONE as real * ONE as real == x
  {}

  /**
   The bound on the classes is next to exact: it admits 1 414 214 of them, and with
   six more the corrected winner can come out negative.
   */
  lemma BoundIsNearlyNeeded()
    ensures 1_414_214 * 1_414_213 <= 2 * ONE < 1_414_215 * 1_414_214
    ensures var scores, units := Halves(1_414_220, 44_115), RoundedHalves(1_414_220, 44_115);
      Normalized(scores, units, 0, Corrected(units, 0)) && Corrected(units, 0)[0] < 0
  {
    hide HalfEven, Total, Sum;
    var scores, units := Halves(1_414_220, 44_115), RoundedHalves(1_414_220, 44_115);
    HalvesTotal(1_414_220, 44_115, 1_414_220);
    HalvesRoundUp();
    OfOne(707_105.5);
    OfOne(707_103.5);
    assert Total(scores, |scores|) == ONE as real;
    assert Sum(units, |units|) == ONE + 707_110;
  }

  lemma UnitsInRangeLength(scores: seq<real>, units: seq<int>, w: nat, result: seq<int>)
    requires Normalized(scores, units, w, result)
    ensures |units| == |scores| == |result|
  {}

  lemma SumNearOne(scores: seq<real>, units: seq<int>, w: nat, result: seq<int>)
    requires Normalized(scores, units, w, result)
    ensures -|scores| <= 2 * (Sum(units, |units|) - ONE) <= |scores|
  {
    hide HalfEven, Exact, Gap, Sum, Total;
    var total := Total(scores, |scores|);
    GapBound(scores, total, units, w, |scores|);
    RoundedSum(scores, units, w);
    HalfEvenNear(Exact(scores, total, w));
  }

  lemma Scale(n: int, a: int, b: int)
    requires n >= 0 && a <= b
    ensures n * a <= n * b
  {}

  lemma WinnerRange(n: int, largest: int, sum: int)
    requires n >= 1 && n * (n - 1) <= 2 * ONE
    requires largest <= sum <= n * largest && -n <= 2 * (sum - ONE) <= n
    ensures 0 <= largest + (ONE - sum) <= ONE
  {
    var d := sum - ONE;
    if largest < d {
      Scale(n, largest, d - 1);
      Scale(n - 1, 2 * d, n);
      Expand(n, d);
    }
  }

  lemma Expand(n: int, d: int)
    ensures n * (d - 1) == n * d - n && (n - 1) * (2 * d) == 2 * (n * d) - 2 * d && (n - 1) * n == n * (n - 1)
  {}

  /** The class that is published as largest is, exactly, within n/2 quanta of the most probable one. */
  lemma PredictionNearBest(scores: seq<real>, units: seq<int>, w: nat, result: seq<int>, predicted: nat, best: nat)
    requires Normalized(scores, units, w, result) && FirstLargest(result, predicted) && best < |scores|
    ensures |result| == |scores|
    ensures var total := Total(scores, |scores|);
      Exact(scores, total, best) - Exact(scores, total, predicted) <= |scores| as real / 2.0
  {
    hide HalfEven, Exact, Rounded, Total, Corrected;
    NearExact(scores, units, w, result, best);
    NearExact(scores, units, w, result, predicted);
  }
}
