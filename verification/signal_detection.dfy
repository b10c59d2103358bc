/** Signal-detection trial counts: hits and misses on signal trials, false
    alarms and correct rejections on noise trials, with their component-wise
    sum, their scaling by a number, the two response rates, and the
    simulation of one count record per response criterion.

    Counts are real numbers, since scaling may make them fractional. A rate
    whose denominator is zero raises a division error in the Python class; here
    it is None. The normal cdf and the binomial generator that simulation
    uses are passed in as functions. */
module Detection {
  import opened Wrappers
  import opened RealArith

  datatype SignalDetection = SignalDetection(hits: real, misses: real, falseAlarms: real, correctRejections: real)

  /** The number of signal trials and of noise trials the record covers. */
  function SignalTrials(s: SignalDetection): real
  {
    s.hits + s.misses
  }

  function NoiseTrials(s: SignalDetection): real
  {
    s.falseAlarms + s.correctRejections
  }

  /** Every count of the record is non-negative. */
  predicate NonNegative(s: SignalDetection)
  {
    s.hits >= 0.0 && s.misses >= 0.0 && s.falseAlarms >= 0.0 && s.correctRejections >= 0.0
  }

  /** The quotient num / den, or None for the division by zero. */
  function Ratio(num: real, den: real): (r: Option<real>)
    ensures r.Some? <==> den != 0.0
    ensures r.Some? ==> r.value * den == num
  {
    if den == 0.0 then None else Some(num / den)
  }

  /** A non-negative part of a positive whole is a fraction in [0, 1]. */
  lemma RatioBounds(num: real, rest: real)
    requires num >= 0.0 && rest >= 0.0 && num + rest > 0.0
    ensures Ratio(num, num + rest).Some?
    ensures 0.0 <= Ratio(num, num + rest).value <= 1.0
  {
    DivBounds(num, num + rest, 0.0, 1.0);
  }

  /** The fraction of signal trials answered "signal". */
  function HitRate(s: SignalDetection): (r: Option<real>)
  {
    Ratio(s.hits, SignalTrials(s))
  }

  /** The fraction of noise trials answered "signal". */
  function FalseAlarmRate(s: SignalDetection): (r: Option<real>)
  {
    Ratio(s.falseAlarms, NoiseTrials(s))
  }

  /** The hit rate exists exactly when there is a signal trial to divide by,
      and then it times the number of signal trials is the number of hits. */
  lemma HitRateDefined(s: SignalDetection)
    ensures HitRate(s).Some? <==> SignalTrials(s) != 0.0
    ensures HitRate(s).Some? ==> HitRate(s).value * SignalTrials(s) == s.hits
  {
  }

  lemma FalseAlarmRateDefined(s: SignalDetection)
    ensures FalseAlarmRate(s).Some? <==> NoiseTrials(s) != 0.0
    ensures FalseAlarmRate(s).Some? ==> FalseAlarmRate(s).value * NoiseTrials(s) == s.falseAlarms
  {
  }

  /** With non-negative counts and at least some trials, both rates are
      fractions in [0, 1]. */
  lemma RatesBounded(s: SignalDetection)
    requires NonNegative(s)
    ensures SignalTrials(s) > 0.0 ==> HitRate(s).Some? && 0.0 <= HitRate(s).value <= 1.0
    ensures NoiseTrials(s) > 0.0 ==> FalseAlarmRate(s).Some? && 0.0 <= FalseAlarmRate(s).value <= 1.0
  {
    if SignalTrials(s) > 0.0 {
      RatioBounds(s.hits, s.misses);
    }
    if NoiseTrials(s) > 0.0 {
      RatioBounds(s.falseAlarms, s.correctRejections);
    }
  }

  /** Pools two records trial type by trial type. */
  function Add(a: SignalDetection, b: SignalDetection): SignalDetection
  {
    SignalDetection(a.hits + b.hits, a.misses + b.misses,
                    a.falseAlarms + b.falseAlarms, a.correctRejections + b.correctRejections)
  }

  /** Multiplies every count by the same number. */
  function Mul(s: SignalDetection, scalar: real): SignalDetection
  {
    SignalDetection(s.hits * scalar, s.misses * scalar,
                    s.falseAlarms * scalar, s.correctRejections * scalar)
  }

  lemma AddCommutative(a: SignalDetection, b: SignalDetection)
    ensures Add(a, b) == Add(b, a)
  {
  }

  lemma AddAssociative(a: SignalDetection, b: SignalDetection, c: SignalDetection)
    ensures Add(Add(a, b), c) == Add(a, Add(b, c))
  {
  }

  /** Pooling adds up the trials of each kind and keeps counts non-negative. */
  lemma AddTrials(a: SignalDetection, b: SignalDetection)
    ensures SignalTrials(Add(a, b)) == SignalTrials(a) + SignalTrials(b)
    ensures NoiseTrials(Add(a, b)) == NoiseTrials(a) + NoiseTrials(b)
    ensures NonNegative(a) && NonNegative(b) ==> NonNegative(Add(a, b))
  {
  }

  /** num1 / den1 <= (num1 + num2) / (den1 + den2) <= num2 / den2 when the
      first quotient is the smaller and both denominators are positive. */
  lemma MediantBetween(num1: real, den1: real, num2: real, den2: real)
    requires den1 > 0.0 && den2 > 0.0 && num1 / den1 <= num2 / den2
    ensures num1 / den1 <= (num1 + num2) / (den1 + den2) <= num2 / den2
  {
    var x, y := num1 / den1, num2 / den2;
    DivBounds(num1, den1, x, x);
    DivBounds(num2, den2, y, y);
    MulNonNegative(den1, y - x);
    MulNonNegative(den2, y - x);
    DivBounds(num1 + num2, den1 + den2, x, y);
  }

  /** The hit rate of a pooled record lies between the hit rates of its
      parts when both parts have signal trials. */
  lemma AddHitRateBetween(a: SignalDetection, b: SignalDetection)
    requires SignalTrials(a) > 0.0 && SignalTrials(b) > 0.0
    ensures var ha, hb, h := HitRate(a).value, HitRate(b).value, HitRate(Add(a, b)).value;
            HitRate(Add(a, b)).Some? &&
            (ha <= hb ==> ha <= h <= hb) && (hb <= ha ==> hb <= h <= ha)
  {
    var sa, sb := SignalTrials(a), SignalTrials(b);
    if a.hits / sa <= b.hits / sb {
      MediantBetween(a.hits, sa, b.hits, sb);
    } else {
      MediantBetween(b.hits, sb, a.hits, sa);
    }
  }

  /** The false-alarm rate of a pooled record lies between the false-alarm
      rates of its parts when both parts have noise trials. */
  lemma AddFalseAlarmRateBetween(a: SignalDetection, b: SignalDetection)
    requires NoiseTrials(a) > 0.0 && NoiseTrials(b) > 0.0
    ensures var fa, fb, f := FalseAlarmRate(a).value, FalseAlarmRate(b).value, FalseAlarmRate(Add(a, b)).value;
            FalseAlarmRate(Add(a, b)).Some? &&
            (fa <= fb ==> fa <= f <= fb) && (fb <= fa ==> fb <= f <= fa)
  {
    var na, nb := NoiseTrials(a), NoiseTrials(b);
    if a.falseAlarms / na <= b.falseAlarms / nb {
      MediantBetween(a.falseAlarms, na, b.falseAlarms, nb);
    } else {
      MediantBetween(b.falseAlarms, nb, a.falseAlarms, na);
    }
  }

  /** Scaling twice is scaling by the product; scaling by 1 changes nothing. */
  lemma MulCompose(s: SignalDetection, k: real, m: real)
    ensures Mul(Mul(s, k), m) == Mul(s, k * m)
    ensures Mul(s, 1.0) == s
  {
  }

  /** Scaling distributes over pooling. */
  lemma MulDistributes(a: SignalDetection, b: SignalDetection, k: real)
    ensures Mul(Add(a, b), k) == Add(Mul(a, k), Mul(b, k))
  {
  }

  /** Scaling multiplies the trial totals by the same number. */
  lemma MulTrials(s: SignalDetection, k: real)
    ensures SignalTrials(Mul(s, k)) == SignalTrials(s) * k
    ensures NoiseTrials(Mul(s, k)) == NoiseTrials(s) * k
  {
  }

  /** A number that times a non-zero n gives s is the quotient s / n. */
  lemma QuotientUnique(s: real, n: real, q: real)
    requires n != 0.0 && q * n == s
    ensures s / n == q
  {
    assert (s / n - q) * n == 0.0;
  }

  /** Scaling numerator and denominator by the same non-zero k leaves the
      quotient, and whether it exists, unchanged. */
  lemma RatioScale(num: real, den: real, k: real, scaledNum: real, scaledDen: real)
    requires k != 0.0 && scaledNum == num * k && scaledDen == den * k
    ensures Ratio(scaledNum, scaledDen) == Ratio(num, den)
  {
    if den != 0.0 {
      var q := num / den;
      assert den * k != 0.0;
      assert q * (den * k) == (q * den) * k == num * k;
      QuotientUnique(num * k, den * k, q);
    } else {
      assert den * k == 0.0;
    }
  }

  /** Scaling by a non-zero number leaves both rates as they were (defined
      or not); scaling by zero leaves neither defined. */
  lemma MulRates(s: SignalDetection, k: real)
    ensures k != 0.0 ==> HitRate(Mul(s, k)) == HitRate(s) && FalseAlarmRate(Mul(s, k)) == FalseAlarmRate(s)
    ensures k == 0.0 ==> HitRate(Mul(s, k)) == None && FalseAlarmRate(Mul(s, k)) == None
  {
    var scaled := Mul(s, k);
    MulTrials(s, k);
    if k != 0.0 {
      RatioScale(s.hits, SignalTrials(s), k, scaled.hits, SignalTrials(scaled));
      RatioScale(s.falseAlarms, NoiseTrials(s), k, scaled.falseAlarms, NoiseTrials(scaled));
    }
  }

  /** The record simulated for the i-th criterion: the criterion is placed
      relative to the midpoint between the noise and signal means, the hit
      and false-alarm probabilities are the normal tail areas beyond it, and
      hits and false alarms are binomial draws (call numbers 2i and 2i + 1 of
      the generator) with misses and correct rejections their complements. */
  function Trial(dPrime: real, criteria: real, signalCount: int, noiseCount: int,
                 cdf: real -> real, binomial: (int, real, nat) -> int, i: nat): SignalDetection
  {
    var k := criteria + dPrime / 2.0;
    var hr := 1.0 - cdf(k - dPrime);
    var far := 1.0 - cdf(k);
    var hits := binomial(signalCount, hr, 2 * i);
    var falseAlarms := binomial(noiseCount, far, 2 * i + 1);
    SignalDetection(hits as real, (signalCount - hits) as real,
                    falseAlarms as real, (noiseCount - falseAlarms) as real)
  }

  /** Every simulated record covers exactly signalCount signal trials and
      noiseCount noise trials; when the draws lie within their trial counts,
      all four counts are non-negative. */
  lemma TrialCounts(dPrime: real, criteria: real, signalCount: int, noiseCount: int,
                    cdf: real -> real, binomial: (int, real, nat) -> int, i: nat)
    ensures var t := Trial(dPrime, criteria, signalCount, noiseCount, cdf, binomial, i);
            SignalTrials(t) == signalCount as real && NoiseTrials(t) == noiseCount as real
    ensures var t := Trial(dPrime, criteria, signalCount, noiseCount, cdf, binomial, i);
            var k := criteria + dPrime / 2.0;
            0 <= binomial(signalCount, 1.0 - cdf(k - dPrime), 2 * i) <= signalCount &&
            0 <= binomial(noiseCount, 1.0 - cdf(k), 2 * i + 1) <= noiseCount
            ==> NonNegative(t)
  {
  }

  /** One record per criterion, in the order of the criteria. */
  method Simulate(dPrime: real, criteriaList: seq<real>, signalCount: int, noiseCount: int,
                  cdf: real -> real, binomial: (int, real, nat) -> int)
    returns (sdtList: seq<SignalDetection>)
    ensures |sdtList| == |criteriaList|
    ensures forall i :: 0 <= i < |criteriaList| ==>
              sdtList[i] == Trial(dPrime, criteriaList[i], signalCount, noiseCount, cdf, binomial, i)
    ensures forall i :: 0 <= i < |sdtList| ==>
              SignalTrials(sdtList[i]) == signalCount as real && NoiseTrials(sdtList[i]) == noiseCount as real
  {
    sdtList := [];
    for i := 0 to |criteriaList|
      invariant |sdtList| == i
      invariant forall j :: 0 <= j < i ==>
                  sdtList[j] == Trial(dPrime, criteriaList[j], signalCount, noiseCount, cdf, binomial, j)
    {
      var criteria := criteriaList[i];
      var k := criteria + dPrime / 2.0;
      var hr := 1.0 - cdf(k - dPrime);
      var far := 1.0 - cdf(k);
      var hits := binomial(signalCount, hr, 2 * i);
      var misses := signalCount - hits;
      var falseAlarms := binomial(noiseCount, far, 2 * i + 1);
      var correctRejections := noiseCount - falseAlarms;
      sdtList := sdtList + [SignalDetection(hits as real, misses as real, falseAlarms as real, correctRejections as real)];
    }
    forall i | 0 <= i < |sdtList|
      ensures SignalTrials(sdtList[i]) == signalCount as real && NoiseTrials(sdtList[i]) == noiseCount as real
    {
      TrialCounts(dPrime, criteriaList[i], signalCount, noiseCount, cdf, binomial, i);
    }
  }
}
