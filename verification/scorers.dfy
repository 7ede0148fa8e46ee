/** The six archetype scorers. Each turns one quarter's metrics (and the
    previous quarter's, for the trend) into a quality, a valuation and a
    trend score clamped to 0..100, an ordered label list and a digest. */
module Scorers {
  import opened Wrappers
  import opened Metrics
  import opened Scoring
  import opened Labels
  import opened Summary

  /** Scores before the two-decimal rounding of the returned mapping. */
  datatype AnalysisResult = AnalysisResult(
    quality: real,
    valuation: real,
    trend: real,
    labels: seq<string>,
    summary: seq<SummaryLine>)

  predicate ScoresInRange(r: AnalysisResult) {
    0.0 <= r.quality <= 100.0 && 0.0 <= r.valuation <= 100.0 && 0.0 <= r.trend <= 100.0
  }

  /** `max(x, 0)`. */
  function PositivePart(x: real): (r: real)
    ensures r >= 0.0 && r >= x
    ensures r == x || r == 0.0
  {
    if x > 0.0 then x else 0.0
  }

  // ---------------------------------------------------------------- platform tech

  const FairValueHighQuality := "高质量 · 估值合理"
  const GrowthPremiumHighQuality := "高质量 · 高估值（成长溢价）"
  const LateExpansion := "扩张后期 · 关注ROIC拐点"
  const FundamentalsWeakening := "基本面走弱"
  const PlatformVocabulary := [FairValueHighQuality, GrowthPremiumHighQuality, LateExpansion, FundamentalsWeakening]

  lemma PlatformVocabularyDistinct()
    ensures Distinct(PlatformVocabulary)
  {
  }

  /** The platform labels; the second high-quality rule is an `elif` of the first. */
  function TechPlatformLabels(q: real, v: real, t: real, roic: Option<real>, wacc: Option<real>): (labels: seq<string>)
    ensures FairValueHighQuality in labels <==> q >= 80.0 && v >= 70.0
    ensures GrowthPremiumHighQuality in labels <==> q >= 80.0 && v < 40.0
    ensures LateExpansion in labels <==> Truthy(roic) && Truthy(wacc) && roic.value < wacc.value && t >= 70.0
    ensures FundamentalsWeakening in labels <==> t <= 30.0
    ensures IsSubsequence(labels, PlatformVocabulary) && |labels| <= 3
  {
    var rules := [
      Rule(q >= 80.0 && v >= 70.0, FairValueHighQuality),
      Rule(!(q >= 80.0 && v >= 70.0) && q >= 80.0 && v < 40.0, GrowthPremiumHighQuality),
      Rule(Truthy(roic) && Truthy(wacc) && roic.value < wacc.value && t >= 70.0, LateExpansion),
      Rule(t <= 30.0, FundamentalsWeakening)];
    assert Tags(rules) == PlatformVocabulary;
    PlatformVocabularyDistinct();
    SelectFacts(rules);
    var labels := Select(rules);
    assert rules[0].tag == FairValueHighQuality && rules[1].tag == GrowthPremiumHighQuality;
    assert rules[2].tag == LateExpansion && rules[3].tag == FundamentalsWeakening;
    // the two high-quality labels exclude each other, so one of the four is always missing
    assert !(FairValueHighQuality in labels && GrowthPremiumHighQuality in labels);
    var missing := if FairValueHighQuality in labels then GrowthPremiumHighQuality else FairValueHighQuality;
    assert missing in PlatformVocabulary && missing !in labels;
    SubsequenceMissing(labels, PlatformVocabulary, missing);
    labels
  }

  function TechPlatform(pe: Option<real>, pb: Option<real>, ps: Option<real>,
                        roic: Option<real>, wacc: Option<real>, grossMargin: Option<real>,
                        fcfMargin: Option<real>, capexRatio: Option<real>,
                        prevRoic: Option<real>, prevGrossMargin: Option<real>,
                        prevCapexRatio: Option<real>): (r: AnalysisResult)
    ensures ScoresInRange(r)
    ensures r.valuation == 100.0 - (0.40 * Normalize(ps, 5.0, 15.0, 30.0) + 0.30 * Normalize(pe, 20.0, 50.0, 100.0)
                                    + 0.30 * Normalize(pb, 5.0, 15.0, 30.0))
    ensures (Delta(roic, prevRoic) == 0.0 && Delta(grossMargin, prevGrossMargin) == 0.0
             && Delta(capexRatio, prevCapexRatio) == 0.0) ==> r.trend == 50.0
    ensures FairValueHighQuality in r.labels <==> r.quality >= 80.0 && r.valuation >= 70.0
    ensures GrowthPremiumHighQuality in r.labels <==> r.quality >= 80.0 && r.valuation < 40.0
    ensures LateExpansion in r.labels <==>
              Truthy(roic) && Truthy(wacc) && roic.value < wacc.value && r.trend >= 70.0
    ensures FundamentalsWeakening in r.labels <==> r.trend <= 30.0
    ensures IsSubsequence(r.labels, PlatformVocabulary) && |r.labels| <= 3
    ensures r.summary == Digest(r.quality, r.valuation, r.trend,
                                [RoicWaccLine(ClassifyRoicWacc(roic, wacc))], r.labels)
  {
    var normalizePs := Normalize(ps, 5.0, 15.0, 30.0);
    var normalizePe := Normalize(pe, 20.0, 50.0, 100.0);
    var normalizePb := Normalize(pb, 5.0, 15.0, 30.0);
    var roicVal := OrZero(roic);
    var waccVal := OrZero(wacc);
    var grossMarginVal := OrZero(grossMargin);
    var fcfMarginVal := OrZero(fcfMargin);
    var quality := (roicVal * 0.35 + PositivePart(roicVal - waccVal) * 0.35
                    + grossMarginVal * 0.15 + fcfMarginVal * 0.15) * 100.0;
    var valuation := 100.0 - (normalizePs * 0.40 + normalizePe * 0.30 + normalizePb * 0.30);
    var deltaRoic := Delta(roic, prevRoic);
    var deltaGrossMargin := Delta(grossMargin, prevGrossMargin);
    var deltaCapexRatio := Delta(capexRatio, prevCapexRatio);
    var trend := (deltaRoic * 0.40 + deltaGrossMargin * 0.30 + (-deltaCapexRatio) * 0.30) * 100.0 + 50.0;
    var (q, v, t) := (Clamp(quality), Clamp(valuation), Clamp(trend));
    var labels := TechPlatformLabels(q, v, t, roic, wacc);
    AnalysisResult(q, v, t, labels, Digest(q, v, t, [RoicWaccLine(ClassifyRoicWacc(roic, wacc))], labels))
  }

  // ---------------------------------------------------------------- mature tech

  const MatureHighQuality := "成熟高质量"
  const FairValuationZone := "估值合理区"
  const SteadyGrowth := "稳健增长"
  const MatureTechVocabulary := [MatureHighQuality, FairValuationZone, SteadyGrowth]

  /** The mature-tech labels. */
  function TechMatureLabels(q: real, v: real, t: real): (labels: seq<string>)
    ensures MatureHighQuality in labels <==> q >= 85.0
    ensures FairValuationZone in labels <==> v >= 70.0
    ensures SteadyGrowth in labels <==> t >= 70.0
    ensures IsSubsequence(labels, MatureTechVocabulary) && |labels| <= 3
  {
    var rules := [
      Rule(q >= 85.0, MatureHighQuality),
      Rule(v >= 70.0, FairValuationZone),
      Rule(t >= 70.0, SteadyGrowth)];
    assert Tags(rules) == MatureTechVocabulary;
    SelectFacts(rules);
    var labels := Select(rules);
    assert rules[0].tag == MatureHighQuality && rules[1].tag == FairValuationZone && rules[2].tag == SteadyGrowth;
    SubsequenceLength(labels, MatureTechVocabulary);
    labels
  }

  function TechMature(pe: Option<real>, pb: Option<real>, ps: Option<real>,
                      roic: Option<real>, fcfMargin: Option<real>, roe: Option<real>,
                      revenueYoy: Option<real>, prevRoic: Option<real>,
                      prevRevenueYoy: Option<real>): (r: AnalysisResult)
    ensures ScoresInRange(r)
    ensures r.valuation == 100.0 - (0.50 * Normalize(pe, 15.0, 25.0, 40.0) + 0.30 * Normalize(pb, 4.0, 8.0, 15.0)
                                    + 0.20 * Normalize(ps, 4.0, 8.0, 15.0))
    ensures (Delta(roic, prevRoic) == 0.0 && Delta(revenueYoy, prevRevenueYoy) == 0.0) ==> r.trend == 50.0
    ensures MatureHighQuality in r.labels <==> r.quality >= 85.0
    ensures FairValuationZone in r.labels <==> r.valuation >= 70.0
    ensures SteadyGrowth in r.labels <==> r.trend >= 70.0
    ensures IsSubsequence(r.labels, MatureTechVocabulary) && |r.labels| <= 3
    ensures r.summary == Digest(r.quality, r.valuation, r.trend, [], r.labels)
  {
    var normalizePe := Normalize(pe, 15.0, 25.0, 40.0);
    var normalizePb := Normalize(pb, 4.0, 8.0, 15.0);
    var normalizePs := Normalize(ps, 4.0, 8.0, 15.0);
    var roicVal := OrZero(roic);
    var fcfMarginVal := OrZero(fcfMargin);
    var roeVal := OrZero(roe);
    var quality := (roicVal * 0.45 + fcfMarginVal * 0.30 + roeVal * 0.25) * 100.0;
    var valuation := 100.0 - (normalizePe * 0.50 + normalizePb * 0.30 + normalizePs * 0.20);
    var deltaRoic := Delta(roic, prevRoic);
    var deltaRevenueYoy := Delta(revenueYoy, prevRevenueYoy);
    var trend := (deltaRoic * 0.50 + deltaRevenueYoy * 0.50) * 100.0 + 50.0;
    var (q, v, t) := (Clamp(quality), Clamp(valuation), Clamp(trend));
    var labels := TechMatureLabels(q, v, t);
    AnalysisResult(q, v, t, labels, Digest(q, v, t, [], labels))
  }

  // ---------------------------------------------------------------- innovative pharma

  const InnovationPremiumPharma := "高质量医药 · 创新溢价"
  const GrowthSlowdownRisk := "高估值 · 成长放缓风险"
  const InnovativePharmaVocabulary := [InnovationPremiumPharma, GrowthSlowdownRisk]

  /** The price/book band line, present only for a truthy price/book. */
  function PbExtra(pb: Option<real>): (extra: seq<SummaryLine>)
    ensures |extra| <= 1
    ensures |extra| == 1 <==> Truthy(pb)
    ensures Truthy(pb) ==> extra == [PbBandLine(ClassifyPb(pb.value))]
  {
    if Truthy(pb) then [PbBandLine(ClassifyPb(pb.value))] else []
  }

  /** The innovative-pharma labels; an absent or zero price/book reads as 0. */
  function PharmaInnovationLabels(q: real, t: real, pb: Option<real>): (labels: seq<string>)
    ensures InnovationPremiumPharma in labels <==> q >= 80.0 && OrZero(pb) > 30.0
    ensures GrowthSlowdownRisk in labels <==> OrZero(pb) > 35.0 && t < 40.0
    ensures IsSubsequence(labels, InnovativePharmaVocabulary) && |labels| <= 2
  {
    var pbVal := OrZero(pb);
    var rules := [
      Rule(q >= 80.0 && pbVal > 30.0, InnovationPremiumPharma),
      Rule(pbVal > 35.0 && t < 40.0, GrowthSlowdownRisk)];
    assert Tags(rules) == InnovativePharmaVocabulary;
    SelectFacts(rules);
    var labels := Select(rules);
    assert rules[0].tag == InnovationPremiumPharma && rules[1].tag == GrowthSlowdownRisk;
    SubsequenceLength(labels, InnovativePharmaVocabulary);
    labels
  }

  function PharmaInnovation(pe: Option<real>, pb: Option<real>, ps: Option<real>,
                            roic: Option<real>, wacc: Option<real>, fcfMargin: Option<real>,
                            roe: Option<real>, grossMargin: Option<real>,
                            prevRoic: Option<real>, prevFcfMargin: Option<real>,
                            prevGrossMargin: Option<real>): (r: AnalysisResult)
    ensures ScoresInRange(r)
    ensures r.valuation == 100.0 - (0.45 * Normalize(pb, 8.0, 20.0, 40.0) + 0.35 * Normalize(pe, 20.0, 50.0, 100.0)
                                    + 0.20 * Normalize(ps, 8.0, 20.0, 40.0))
    ensures (Delta(roic, prevRoic) == 0.0 && Delta(fcfMargin, prevFcfMargin) == 0.0
             && Delta(grossMargin, prevGrossMargin) == 0.0) ==> r.trend == 50.0
    ensures InnovationPremiumPharma in r.labels <==> r.quality >= 80.0 && OrZero(pb) > 30.0
    ensures GrowthSlowdownRisk in r.labels <==> OrZero(pb) > 35.0 && r.trend < 40.0
    ensures IsSubsequence(r.labels, InnovativePharmaVocabulary) && |r.labels| <= 2
    ensures r.summary == Digest(r.quality, r.valuation, r.trend, PbExtra(pb), r.labels)
  {
    var normalizePb := Normalize(pb, 8.0, 20.0, 40.0);
    var normalizePe := Normalize(pe, 20.0, 50.0, 100.0);
    var normalizePs := Normalize(ps, 8.0, 20.0, 40.0);
    var roicVal := OrZero(roic);
    var waccVal := OrZero(wacc);
    var fcfMarginVal := OrZero(fcfMargin);
    var roeVal := OrZero(roe);
    var quality := (roicVal * 0.40 + PositivePart(roicVal - waccVal) * 0.30
                    + fcfMarginVal * 0.20 + roeVal * 0.10) * 100.0;
    var valuation := 100.0 - (normalizePb * 0.45 + normalizePe * 0.35 + normalizePs * 0.20);
    var deltaRoic := Delta(roic, prevRoic);
    var deltaFcfMargin := Delta(fcfMargin, prevFcfMargin);
    var deltaGrossMargin := Delta(grossMargin, prevGrossMargin);
    var trend := (deltaRoic * 0.40 + deltaFcfMargin * 0.30 + deltaGrossMargin * 0.30) * 100.0 + 50.0;
    var (q, v, t) := (Clamp(quality), Clamp(valuation), Clamp(trend));
    var labels := PharmaInnovationLabels(q, t, pb);
    AnalysisResult(q, v, t, labels, Digest(q, v, t, PbExtra(pb), labels))
  }

  // ---------------------------------------------------------------- mature pharma

  const MatureStablePharma := "成熟稳定制药"
  const LowValuationSafetyMargin := "低估值安全边际"
  const MaturePharmaVocabulary := [MatureStablePharma, LowValuationSafetyMargin]

  /** The mature-pharma labels. */
  function PharmaMatureLabels(q: real, v: real): (labels: seq<string>)
    ensures MatureStablePharma in labels <==> q >= 75.0
    ensures LowValuationSafetyMargin in labels <==> v >= 70.0
    ensures IsSubsequence(labels, MaturePharmaVocabulary) && |labels| <= 2
  {
    var rules := [
      Rule(q >= 75.0, MatureStablePharma),
      Rule(v >= 70.0, LowValuationSafetyMargin)];
    assert Tags(rules) == MaturePharmaVocabulary;
    SelectFacts(rules);
    var labels := Select(rules);
    assert rules[0].tag == MatureStablePharma && rules[1].tag == LowValuationSafetyMargin;
    SubsequenceLength(labels, MaturePharmaVocabulary);
    labels
  }

  function PharmaMature(pe: Option<real>, pb: Option<real>, roe: Option<real>,
                        fcfMargin: Option<real>, grossMargin: Option<real>,
                        prevRoe: Option<real>, prevFcfMargin: Option<real>): (r: AnalysisResult)
    ensures ScoresInRange(r)
    ensures r.valuation == 100.0 - (0.60 * Normalize(pb, 1.0, 3.0, 6.0) + 0.40 * Normalize(pe, 10.0, 18.0, 30.0))
    ensures (Delta(roe, prevRoe) == 0.0 && Delta(fcfMargin, prevFcfMargin) == 0.0) ==> r.trend == 50.0
    ensures MatureStablePharma in r.labels <==> r.quality >= 75.0
    ensures LowValuationSafetyMargin in r.labels <==> r.valuation >= 70.0
    ensures IsSubsequence(r.labels, MaturePharmaVocabulary) && |r.labels| <= 2
    ensures r.summary == Digest(r.quality, r.valuation, r.trend, [], r.labels)
  {
    var normalizePb := Normalize(pb, 1.0, 3.0, 6.0);
    var normalizePe := Normalize(pe, 10.0, 18.0, 30.0);
    var roeVal := OrZero(roe);
    var fcfMarginVal := OrZero(fcfMargin);
    var grossMarginVal := OrZero(grossMargin);
    var quality := (roeVal * 0.50 + fcfMarginVal * 0.30 + grossMarginVal * 0.20) * 100.0;
    var valuation := 100.0 - (normalizePb * 0.60 + normalizePe * 0.40);
    var deltaRoe := Delta(roe, prevRoe);
    var deltaFcfMargin := Delta(fcfMargin, prevFcfMargin);
    var trend := (deltaRoe * 0.60 + deltaFcfMargin * 0.40) * 100.0 + 50.0;
    var (q, v, t) := (Clamp(quality), Clamp(valuation), Clamp(trend));
    var labels := PharmaMatureLabels(q, v);
    AnalysisResult(q, v, t, labels, Digest(q, v, t, [], labels))
  }

  // ---------------------------------------------------------------- financial

  const HighRoeFinancial := "高ROE金融"
  const DeeplyUndervalued := "深度低估"
  const FinancialVocabulary := [HighRoeFinancial, DeeplyUndervalued]

  /** The financial labels; they read the raw metrics, not the scores. */
  function FinancialLabels(roe: Option<real>, pb: Option<real>): (labels: seq<string>)
    ensures HighRoeFinancial in labels <==> OrZero(roe) >= 15.0
    ensures DeeplyUndervalued in labels <==> !Truthy(pb) || pb.value < 1.0
    ensures IsSubsequence(labels, FinancialVocabulary) && |labels| <= 2
  {
    var roeVal := OrZero(roe);
    var pbVal := OrZero(pb);
    var rules := [
      Rule(roeVal >= 15.0, HighRoeFinancial),
      Rule(pbVal < 1.0, DeeplyUndervalued)];
    assert Tags(rules) == FinancialVocabulary;
    SelectFacts(rules);
    var labels := Select(rules);
    assert rules[0].tag == HighRoeFinancial && rules[1].tag == DeeplyUndervalued;
    SubsequenceLength(labels, FinancialVocabulary);
    labels
  }

  function Financial(pb: Option<real>, roe: Option<real>, fcfMargin: Option<real>,
                     prevRoe: Option<real>): (r: AnalysisResult)
    ensures ScoresInRange(r)
    ensures OrZero(roe) < 12.0 ==> r.quality == 0.0
    ensures r.valuation == 100.0 - Normalize(pb, 0.8, 1.5, 3.0)
    ensures Delta(roe, prevRoe) == 0.0 ==> r.trend == 50.0
    ensures HighRoeFinancial in r.labels <==> OrZero(roe) >= 15.0
    ensures DeeplyUndervalued in r.labels <==> !Truthy(pb) || pb.value < 1.0
    ensures IsSubsequence(r.labels, FinancialVocabulary) && |r.labels| <= 2
    ensures r.summary == Digest(r.quality, r.valuation, r.trend, [], r.labels)
  {
    var roeVal := OrZero(roe);
    var fcfMarginVal := OrZero(fcfMargin);
    var quality := if roeVal < 12.0 then 0.0 else (roeVal * 0.60 + fcfMarginVal * 0.40) * 100.0;
    var valuation := 100.0 - Normalize(pb, 0.8, 1.5, 3.0);
    var deltaRoe := Delta(roe, prevRoe);
    var trend := deltaRoe * 100.0 + 50.0;
    var (q, v, t) := (Clamp(quality), Clamp(valuation), Clamp(trend));
    var labels := FinancialLabels(roe, pb);
    AnalysisResult(q, v, t, labels, Digest(q, v, t, [], labels))
  }

  // ---------------------------------------------------------------- manufacturing

  const CycleTroughHighQuality := "周期底部 · 高质量"
  const CyclicalRecovery := "周期复苏迹象"
  const ManufacturingVocabulary := [CycleTroughHighQuality, CyclicalRecovery]

  /** The manufacturing labels. */
  function ManufacturingLabels(q: real, v: real, t: real): (labels: seq<string>)
    ensures CycleTroughHighQuality in labels <==> q >= 70.0 && v >= 70.0
    ensures CyclicalRecovery in labels <==> t >= 70.0
    ensures IsSubsequence(labels, ManufacturingVocabulary) && |labels| <= 2
  {
    var rules := [
      Rule(q >= 70.0 && v >= 70.0, CycleTroughHighQuality),
      Rule(t >= 70.0, CyclicalRecovery)];
    assert Tags(rules) == ManufacturingVocabulary;
    SelectFacts(rules);
    var labels := Select(rules);
    assert rules[0].tag == CycleTroughHighQuality && rules[1].tag == CyclicalRecovery;
    SubsequenceLength(labels, ManufacturingVocabulary);
    labels
  }

  function Manufacturing(pb: Option<real>, ps: Option<real>, roic: Option<real>,
                         grossMargin: Option<real>, fcfMargin: Option<real>,
                         revenueYoy: Option<real>, prevRoic: Option<real>,
                         prevGrossMargin: Option<real>, prevRevenueYoy: Option<real>): (r: AnalysisResult)
    ensures ScoresInRange(r)
    ensures r.valuation == 100.0 - (0.50 * Normalize(pb, 1.0, 2.5, 5.0) + 0.50 * Normalize(ps, 0.5, 1.5, 3.0))
    ensures (Delta(roic, prevRoic) == 0.0 && Delta(grossMargin, prevGrossMargin) == 0.0
             && Delta(revenueYoy, prevRevenueYoy) == 0.0) ==> r.trend == 50.0
    ensures CycleTroughHighQuality in r.labels <==> r.quality >= 70.0 && r.valuation >= 70.0
    ensures CyclicalRecovery in r.labels <==> r.trend >= 70.0
    ensures IsSubsequence(r.labels, ManufacturingVocabulary) && |r.labels| <= 2
    ensures r.summary == Digest(r.quality, r.valuation, r.trend, [], r.labels)
  {
    var normalizePb := Normalize(pb, 1.0, 2.5, 5.0);
    var normalizePs := Normalize(ps, 0.5, 1.5, 3.0);
    var roicVal := OrZero(roic);
    var grossMarginVal := OrZero(grossMargin);
    var fcfMarginVal := OrZero(fcfMargin);
    var quality := (roicVal * 0.40 + grossMarginVal * 0.30 + fcfMarginVal * 0.30) * 100.0;
    var valuation := 100.0 - (normalizePb * 0.50 + normalizePs * 0.50);
    var deltaRoic := Delta(roic, prevRoic);
    var deltaGrossMargin := Delta(grossMargin, prevGrossMargin);
    var deltaRevenueYoy := Delta(revenueYoy, prevRevenueYoy);
    var trend := (deltaRoic * 0.40 + deltaGrossMargin * 0.40 + deltaRevenueYoy * 0.20) * 100.0 + 50.0;
    var (q, v, t) := (Clamp(quality), Clamp(valuation), Clamp(trend));
    var labels := ManufacturingLabels(q, v, t);
    AnalysisResult(q, v, t, labels, Digest(q, v, t, [], labels))
  }
}
