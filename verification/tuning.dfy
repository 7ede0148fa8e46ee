/** The scoring formulas as data: for each archetype, the weighted quality
    terms, the valuation breakpoints and weights, and the weighted trend
    deltas, together with a generic evaluator. The straight-line scorers
    are proved to agree with this table, and facts that hold for every row
    (the valuation never needs its clamp, the trend is neutral without a
    previous quarter, a dearer multiple never scores cheaper) are proved
    once, here, over the table. */
module Tuning {
  import opened Wrappers
  import opened Metrics
  import opened Scoring
  import opened CompanyTypes

  /** A quality input: a metric read with `x if x else 0`, or the spread
      `max(ROIC - WACC, 0)`. */
  datatype QualityTerm = Plain(f: Field) | Spread

  /** A valuation multiple and its normaliser breakpoints. */
  datatype Band = Band(f: Field, low: real, mid: real, high: real)

  /** A trend input: the delta of a metric, counted up (`Rise`) or down (`Fall`). */
  datatype TrendTerm = Rise(f: Field) | Fall(f: Field)

  /** A minimum on one metric below which quality is forced to 0. */
  datatype Floor = NoFloor | Floor(f: Field, min: real)

  datatype Profile = Profile(
    floor: Floor,
    quality: seq<(QualityTerm, real)>,
    valuation: seq<(Band, real)>,
    trend: seq<(TrendTerm, real)>)

  /** The tuning table. */
  function ProfileOf(t: CompanyType): Profile {
    match t
    case TechPlatform => Profile(NoFloor,
      [(Plain(ROIC), 0.35), (Spread, 0.35), (Plain(GrossMargin), 0.15), (Plain(FcfMargin), 0.15)],
      [(Band(PS, 5.0, 15.0, 30.0), 0.40), (Band(PE, 20.0, 50.0, 100.0), 0.30), (Band(PB, 5.0, 15.0, 30.0), 0.30)],
      [(Rise(ROIC), 0.40), (Rise(GrossMargin), 0.30), (Fall(CapexRatio), 0.30)])
    case TechMature => Profile(NoFloor,
      [(Plain(ROIC), 0.45), (Plain(FcfMargin), 0.30), (Plain(ROE), 0.25)],
      [(Band(PE, 15.0, 25.0, 40.0), 0.50), (Band(PB, 4.0, 8.0, 15.0), 0.30), (Band(PS, 4.0, 8.0, 15.0), 0.20)],
      [(Rise(ROIC), 0.50), (Rise(RevenueYoy), 0.50)])
    case PharmaInnovation => Profile(NoFloor,
      [(Plain(ROIC), 0.40), (Spread, 0.30), (Plain(FcfMargin), 0.20), (Plain(ROE), 0.10)],
      [(Band(PB, 8.0, 20.0, 40.0), 0.45), (Band(PE, 20.0, 50.0, 100.0), 0.35), (Band(PS, 8.0, 20.0, 40.0), 0.20)],
      [(Rise(ROIC), 0.40), (Rise(FcfMargin), 0.30), (Rise(GrossMargin), 0.30)])
    case PharmaMature => Profile(NoFloor,
      [(Plain(ROE), 0.50), (Plain(FcfMargin), 0.30), (Plain(GrossMargin), 0.20)],
      [(Band(PB, 1.0, 3.0, 6.0), 0.60), (Band(PE, 10.0, 18.0, 30.0), 0.40)],
      [(Rise(ROE), 0.60), (Rise(FcfMargin), 0.40)])
    case Financial => Profile(Floor(ROE, 12.0),
      [(Plain(ROE), 0.60), (Plain(FcfMargin), 0.40)],
      [(Band(PB, 0.8, 1.5, 3.0), 1.0)],
      [(Rise(ROE), 1.0)])
    case Manufacturing => Profile(NoFloor,
      [(Plain(ROIC), 0.40), (Plain(GrossMargin), 0.30), (Plain(FcfMargin), 0.30)],
      [(Band(PB, 1.0, 2.5, 5.0), 0.50), (Band(PS, 0.5, 1.5, 3.0), 0.50)],
      [(Rise(ROIC), 0.40), (Rise(GrossMargin), 0.40), (Rise(RevenueYoy), 0.20)])
  }

  /** `sum(w * value(x) for (x, w) in terms)`, summed front to back. */
  function WeightedSum<T>(terms: seq<(T, real)>, value: T -> real): real {
    if |terms| == 0 then 0.0 else terms[0].1 * value(terms[0].0) + WeightedSum(terms[1..], value)
  }

  function WeightSum<T>(terms: seq<(T, real)>): real {
    if |terms| == 0 then 0.0 else terms[0].1 + WeightSum(terms[1..])
  }

  predicate NonNegativeWeights<T>(terms: seq<(T, real)>) {
    forall i :: 0 <= i < |terms| ==> terms[i].1 >= 0.0
  }

  function QualityValue(term: QualityTerm, m: QuarterMetrics): real {
    match term
    case Plain(f) => OrZero(Get(m, f))
    case Spread =>
      var d := OrZero(m.roic) - OrZero(m.wacc);
      if d > 0.0 then d else 0.0
  }

  function BandValue(b: Band, m: QuarterMetrics): real {
    Normalize(Get(m, b.f), b.low, b.mid, b.high)
  }

  function TrendValue(term: TrendTerm, current: QuarterMetrics, previous: QuarterMetrics): real {
    match term
    case Rise(f) => Delta(Get(current, f), Get(previous, f))
    case Fall(f) => -Delta(Get(current, f), Get(previous, f))
  }

  function QualitySum(terms: seq<(QualityTerm, real)>, m: QuarterMetrics): real {
    WeightedSum(terms, term => QualityValue(term, m))
  }

  function ValuationSum(bands: seq<(Band, real)>, m: QuarterMetrics): real {
    WeightedSum(bands, b => BandValue(b, m))
  }

  function TrendSum(terms: seq<(TrendTerm, real)>, current: QuarterMetrics, previous: QuarterMetrics): real {
    WeightedSum(terms, term => TrendValue(term, current, previous))
  }

  /** Quality from the table: the floor, else the clamped weighted sum x100. */
  function ReferenceQuality(p: Profile, m: QuarterMetrics): real {
    if p.floor.Floor? && OrZero(Get(m, p.floor.f)) < p.floor.min then Clamp(0.0)
    else Clamp(QualitySum(p.quality, m) * 100.0)
  }

  /** Valuation from the table: 100 minus the weighted normalised multiples. */
  function ReferenceValuation(p: Profile, m: QuarterMetrics): real {
    Clamp(100.0 - ValuationSum(p.valuation, m))
  }

  /** Trend from the table: the weighted deltas x100, centred on 50. */
  function ReferenceTrend(p: Profile, current: QuarterMetrics, previous: QuarterMetrics): real {
    Clamp(TrendSum(p.trend, current, previous) * 100.0 + 50.0)
  }

  /** Every row's weights are non-negative, and its valuation weights sum to 1. */
  lemma TableWellFormed(t: CompanyType)
    ensures NonNegativeWeights(ProfileOf(t).quality)
    ensures NonNegativeWeights(ProfileOf(t).trend)
    ensures NonNegativeWeights(ProfileOf(t).valuation)
    ensures WeightSum(ProfileOf(t).valuation) == 1.0
  {
    var v := ProfileOf(t).valuation;
    if |v| == 3 {
      assert v[1..][1..][1..] == [];
    } else if |v| == 2 {
      assert v[1..][1..] == [];
    } else {
      assert v[1..] == [];
    }
  }

  /** Every table row has at most four terms; these unfold the sum of each length. */
  lemma WeightedSumUnfold<T>(terms: seq<(T, real)>, value: T -> real)
    requires 1 <= |terms| <= 4
    ensures |terms| == 1 ==> WeightedSum(terms, value) == terms[0].1 * value(terms[0].0)
    ensures |terms| == 2 ==> WeightedSum(terms, value)
                             == terms[0].1 * value(terms[0].0) + terms[1].1 * value(terms[1].0)
    ensures |terms| == 3 ==> WeightedSum(terms, value)
                             == terms[0].1 * value(terms[0].0) + terms[1].1 * value(terms[1].0)
                                + terms[2].1 * value(terms[2].0)
    ensures |terms| == 4 ==> WeightedSum(terms, value)
                             == terms[0].1 * value(terms[0].0) + terms[1].1 * value(terms[1].0)
                                + terms[2].1 * value(terms[2].0) + terms[3].1 * value(terms[3].0)
  {
    var t1 := terms[1..];
    if |terms| >= 2 {
      var t2 := t1[1..];
      if |terms| >= 3 {
        var t3 := t2[1..];
        if |terms| == 4 {
          assert WeightedSum(t3[1..], value) == 0.0;
        }
        assert WeightedSum(t3, value) == (if |t3| == 0 then 0.0 else t3[0].1 * value(t3[0].0));
      }
      assert WeightedSum(t2, value) == (if |t2| == 0 then 0.0 else t2[0].1 * value(t2[0].0) + WeightedSum(t2[1..], value));
    }
  }

  /** Non-negative weights on values within 0..100 keep the sum within
      0..100 times the total weight. */
  lemma {:induction false} WeightedSumBounds<T>(terms: seq<(T, real)>, value: T -> real)
    requires NonNegativeWeights(terms)
    requires forall i :: 0 <= i < |terms| ==> 0.0 <= value(terms[i].0) <= 100.0
    ensures 0.0 <= WeightedSum(terms, value) <= 100.0 * WeightSum(terms)
    decreases |terms|
  {
    if |terms| > 0 {
      forall i | 0 <= i < |terms[1..]|
        ensures terms[1..][i].1 >= 0.0 && 0.0 <= value(terms[1..][i].0) <= 100.0
      {
        assert terms[1..][i] == terms[i + 1];
      }
      WeightedSumBounds(terms[1..], value);
      var w, n := terms[0].1, value(terms[0].0);
      ScaleWithin(w, n);
      assert WeightedSum(terms, value) == w * n + WeightedSum(terms[1..], value);
      assert WeightSum(terms) == w + WeightSum(terms[1..]);
    }
  }

  lemma ScaleWithin(w: real, n: real)
    requires w >= 0.0 && 0.0 <= n <= 100.0
    ensures 0.0 <= w * n <= 100.0 * w
  {
  }

  /** With non-negative weights the sum is monotone in the values. */
  lemma {:induction false} WeightedSumMonotone<T>(terms: seq<(T, real)>, lo: T -> real, hi: T -> real)
    requires NonNegativeWeights(terms)
    requires forall i :: 0 <= i < |terms| ==> lo(terms[i].0) <= hi(terms[i].0)
    ensures WeightedSum(terms, lo) <= WeightedSum(terms, hi)
    decreases |terms|
  {
    if |terms| > 0 {
      forall i | 0 <= i < |terms[1..]|
        ensures terms[1..][i].1 >= 0.0 && lo(terms[1..][i].0) <= hi(terms[1..][i].0)
      {
        assert terms[1..][i] == terms[i + 1];
      }
      WeightedSumMonotone(terms[1..], lo, hi);
      ScaleMonotone(terms[0].1, lo(terms[0].0), hi(terms[0].0));
    }
  }

  lemma ScaleMonotone(w: real, a: real, b: real)
    requires w >= 0.0 && a <= b
    ensures w * a <= w * b
  {
  }

  /** A sum of zero values is zero, whatever the weights. */
  lemma {:induction false} WeightedSumOfZeros<T>(terms: seq<(T, real)>, value: T -> real)
    requires forall i :: 0 <= i < |terms| ==> value(terms[i].0) == 0.0
    ensures WeightedSum(terms, value) == 0.0
    decreases |terms|
  {
    if |terms| > 0 {
      forall i | 0 <= i < |terms[1..]| ensures value(terms[1..][i].0) == 0.0 {
        assert terms[1..][i] == terms[i + 1];
      }
      WeightedSumOfZeros(terms[1..], value);
    }
  }

  /** For every archetype the valuation score equals its unclamped value:
      the clamp never changes it. */
  lemma ValuationNeedsNoClamp(t: CompanyType, m: QuarterMetrics)
    ensures 0.0 <= 100.0 - ValuationSum(ProfileOf(t).valuation, m) <= 100.0
    ensures ReferenceValuation(ProfileOf(t), m) == 100.0 - ValuationSum(ProfileOf(t).valuation, m)
  {
    TableWellFormed(t);
    var v := ProfileOf(t).valuation;
    WeightedSumBounds(v, b => BandValue(b, m));
  }

  /** Without a previous quarter every delta is 0 and the trend is 50. */
  lemma TrendSumWithoutPrevious(terms: seq<(TrendTerm, real)>, current: QuarterMetrics)
    ensures TrendSum(terms, current, Absent) == 0.0
  {
    WeightedSumOfZeros(terms, term => TrendValue(term, current, Absent));
  }

  /** `m` with field `f` replaced by `v`. */
  function With(m: QuarterMetrics, f: Field, v: Option<real>): (r: QuarterMetrics)
    ensures Get(r, f) == v
    ensures forall g :: g != f ==> Get(r, g) == Get(m, g)
  {
    match f
    case PE => m.(pe := v)
    case PB => m.(pb := v)
    case PS => m.(ps := v)
    case ROE => m.(roe := v)
    case ROIC => m.(roic := v)
    case WACC => m.(wacc := v)
    case RevenueYoy => m.(revenueYoy := v)
    case GrossMargin => m.(grossMargin := v)
    case FcfMargin => m.(fcfMargin := v)
    case CapexRatio => m.(capexRatio := v)
  }

  lemma BandMonotone(b: Band, m: QuarterMetrics, f: Field, x: real, y: real)
    requires x <= y
    ensures BandValue(b, With(m, f, Some(x))) <= BandValue(b, With(m, f, Some(y)))
  {
    if b.f == f {
      NormalizeMonotone(x, y, b.low, b.mid, b.high);
    } else {
      assert Get(With(m, f, Some(x)), b.f) == Get(With(m, f, Some(y)), b.f);
    }
  }

  /** Higher multiples mean a dearer company: raising any one metric never
      raises the valuation score, for every archetype. */
  lemma ValuationAntitone(t: CompanyType, m: QuarterMetrics, f: Field, x: real, y: real)
    requires x <= y
    ensures ReferenceValuation(ProfileOf(t), With(m, f, Some(y))) <= ReferenceValuation(ProfileOf(t), With(m, f, Some(x)))
  {
    TableWellFormed(t);
    var v := ProfileOf(t).valuation;
    var mx, my := With(m, f, Some(x)), With(m, f, Some(y));
    forall i | 0 <= i < |v| ensures BandValue(v[i].0, mx) <= BandValue(v[i].0, my) {
      BandMonotone(v[i].0, m, f, x, y);
    }
    WeightedSumMonotone(v, b => BandValue(b, mx), b => BandValue(b, my));
    ValuationNeedsNoClamp(t, mx);
    ValuationNeedsNoClamp(t, my);
  }
}
