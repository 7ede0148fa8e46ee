/** The entry point: route one quarter (and optionally the one before it)
    to the scorer of the company's archetype. */
module Dispatch {
  import opened Wrappers
  import opened Metrics
  import opened Scoring
  import opened Labels
  import opened CompanyTypes
  import opened Tuning
  import opened Summary
  import S = Scorers

  datatype DispatchError = UnsupportedCompanyType(tag: string)

  /** The scorer of archetype `t`, fed the metrics it reads. */
  function Score(t: CompanyType, current: QuarterMetrics, previous: QuarterMetrics): (r: S.AnalysisResult)
    ensures S.ScoresInRange(r)
    ensures |r.labels| <= 3
  {
    match t
    case TechPlatform =>
      S.TechPlatform(current.pe, current.pb, current.ps, current.roic, current.wacc,
                     current.grossMargin, current.fcfMargin, current.capexRatio,
                     previous.roic, previous.grossMargin, previous.capexRatio)
    case TechMature =>
      S.TechMature(current.pe, current.pb, current.ps, current.roic, current.fcfMargin,
                   current.roe, current.revenueYoy, previous.roic, previous.revenueYoy)
    case PharmaInnovation =>
      S.PharmaInnovation(current.pe, current.pb, current.ps, current.roic, current.wacc,
                         current.fcfMargin, current.roe, current.grossMargin,
                         previous.roic, previous.fcfMargin, previous.grossMargin)
    case PharmaMature =>
      S.PharmaMature(current.pe, current.pb, current.roe, current.fcfMargin, current.grossMargin,
                     previous.roe, previous.fcfMargin)
    case Financial =>
      S.Financial(current.pb, current.roe, current.fcfMargin, previous.roe)
    case Manufacturing =>
      S.Manufacturing(current.pb, current.ps, current.roic, current.grossMargin, current.fcfMargin,
                      current.revenueYoy, previous.roic, previous.grossMargin, previous.revenueYoy)
  }

  /** Analyse a quarter for the archetype named `companyType`. A missing
      previous quarter reads as one with every metric absent; a tag outside
      the enumeration is an error carrying the tag. */
  function Analyze(companyType: string, current: QuarterMetrics, previous: Option<QuarterMetrics>)
    : (r: Result<S.AnalysisResult, DispatchError>)
    ensures r.Success? <==> companyType in AllTags
    ensures r.Failure? ==> r.error == UnsupportedCompanyType(companyType)
    ensures r.Success? ==> S.ScoresInRange(r.value) && |r.value.labels| <= 3
  {
    var prev := previous.GetOr(Absent);
    match Parse(companyType)
    case None => Failure(UnsupportedCompanyType(companyType))
    case Some(t) => Success(Score(t, current, prev))
  }

  // ---------------------------------------------------------------- inputs read

  /** The current-quarter metrics each archetype reads. */
  function CurrentInputs(t: CompanyType): set<Field> {
    match t
    case TechPlatform => {PE, PB, PS, ROIC, WACC, GrossMargin, FcfMargin, CapexRatio}
    case TechMature => {PE, PB, PS, ROIC, FcfMargin, ROE, RevenueYoy}
    case PharmaInnovation => {PE, PB, PS, ROIC, WACC, FcfMargin, ROE, GrossMargin}
    case PharmaMature => {PE, PB, ROE, FcfMargin, GrossMargin}
    case Financial => {PB, ROE, FcfMargin}
    case Manufacturing => {PB, PS, ROIC, GrossMargin, FcfMargin, RevenueYoy}
  }

  /** The previous-quarter metrics each archetype reads. */
  function PreviousInputs(t: CompanyType): set<Field> {
    match t
    case TechPlatform => {ROIC, GrossMargin, CapexRatio}
    case TechMature => {ROIC, RevenueYoy}
    case PharmaInnovation => {ROIC, FcfMargin, GrossMargin}
    case PharmaMature => {ROE, FcfMargin}
    case Financial => {ROE}
    case Manufacturing => {ROIC, GrossMargin, RevenueYoy}
  }

  predicate AgreeOn(a: QuarterMetrics, b: QuarterMetrics, fields: set<Field>) {
    forall f :: f in fields ==> Get(a, f) == Get(b, f)
  }

  /** The result depends on nothing but the listed inputs: two quarters that
      agree on them are scored identically. */
  lemma ReadsOnlyItsInputs(t: CompanyType, c1: QuarterMetrics, c2: QuarterMetrics,
                           p1: QuarterMetrics, p2: QuarterMetrics)
    requires AgreeOn(c1, c2, CurrentInputs(t)) && AgreeOn(p1, p2, PreviousInputs(t))
    ensures Score(t, c1, p1) == Score(t, c2, p2)
  {
    match t
    case TechPlatform => ReadsOnlyTechPlatform(c1, c2, p1, p2);
    case TechMature => ReadsOnlyTechMature(c1, c2, p1, p2);
    case PharmaInnovation => ReadsOnlyPharmaInnovation(c1, c2, p1, p2);
    case PharmaMature => ReadsOnlyPharmaMature(c1, c2, p1, p2);
    case Financial => ReadsOnlyFinancial(c1, c2, p1, p2);
    case Manufacturing => ReadsOnlyManufacturing(c1, c2, p1, p2);
  }

  lemma ReadsOnlyTechPlatform(c1: QuarterMetrics, c2: QuarterMetrics, p1: QuarterMetrics, p2: QuarterMetrics)
    requires AgreeOn(c1, c2, CurrentInputs(TechPlatform)) && AgreeOn(p1, p2, PreviousInputs(TechPlatform))
    ensures Score(TechPlatform, c1, p1) == Score(TechPlatform, c2, p2)
  {
    assert c1.pe == c2.pe by { assert Get(c1, PE) == Get(c2, PE); }
    assert c1.pb == c2.pb by { assert Get(c1, PB) == Get(c2, PB); }
    assert c1.ps == c2.ps by { assert Get(c1, PS) == Get(c2, PS); }
    assert c1.roic == c2.roic by { assert Get(c1, ROIC) == Get(c2, ROIC); }
    assert c1.wacc == c2.wacc by { assert Get(c1, WACC) == Get(c2, WACC); }
    assert c1.grossMargin == c2.grossMargin by { assert Get(c1, GrossMargin) == Get(c2, GrossMargin); }
    assert c1.fcfMargin == c2.fcfMargin by { assert Get(c1, FcfMargin) == Get(c2, FcfMargin); }
    assert c1.capexRatio == c2.capexRatio by { assert Get(c1, CapexRatio) == Get(c2, CapexRatio); }
    assert p1.roic == p2.roic by { assert Get(p1, ROIC) == Get(p2, ROIC); }
    assert p1.grossMargin == p2.grossMargin by { assert Get(p1, GrossMargin) == Get(p2, GrossMargin); }
    assert p1.capexRatio == p2.capexRatio by { assert Get(p1, CapexRatio) == Get(p2, CapexRatio); }
  }

  lemma ReadsOnlyTechMature(c1: QuarterMetrics, c2: QuarterMetrics, p1: QuarterMetrics, p2: QuarterMetrics)
    requires AgreeOn(c1, c2, CurrentInputs(TechMature)) && AgreeOn(p1, p2, PreviousInputs(TechMature))
    ensures Score(TechMature, c1, p1) == Score(TechMature, c2, p2)
  {
    assert c1.pe == c2.pe by { assert Get(c1, PE) == Get(c2, PE); }
    assert c1.pb == c2.pb by { assert Get(c1, PB) == Get(c2, PB); }
    assert c1.ps == c2.ps by { assert Get(c1, PS) == Get(c2, PS); }
    assert c1.roic == c2.roic by { assert Get(c1, ROIC) == Get(c2, ROIC); }
    assert c1.fcfMargin == c2.fcfMargin by { assert Get(c1, FcfMargin) == Get(c2, FcfMargin); }
    assert c1.roe == c2.roe by { assert Get(c1, ROE) == Get(c2, ROE); }
    assert c1.revenueYoy == c2.revenueYoy by { assert Get(c1, RevenueYoy) == Get(c2, RevenueYoy); }
    assert p1.roic == p2.roic by { assert Get(p1, ROIC) == Get(p2, ROIC); }
    assert p1.revenueYoy == p2.revenueYoy by { assert Get(p1, RevenueYoy) == Get(p2, RevenueYoy); }
  }

  lemma ReadsOnlyPharmaInnovation(c1: QuarterMetrics, c2: QuarterMetrics, p1: QuarterMetrics, p2: QuarterMetrics)
    requires AgreeOn(c1, c2, CurrentInputs(PharmaInnovation)) && AgreeOn(p1, p2, PreviousInputs(PharmaInnovation))
    ensures Score(PharmaInnovation, c1, p1) == Score(PharmaInnovation, c2, p2)
  {
    assert c1.pe == c2.pe by { assert Get(c1, PE) == Get(c2, PE); }
    assert c1.pb == c2.pb by { assert Get(c1, PB) == Get(c2, PB); }
    assert c1.ps == c2.ps by { assert Get(c1, PS) == Get(c2, PS); }
    assert c1.roic == c2.roic by { assert Get(c1, ROIC) == Get(c2, ROIC); }
    assert c1.wacc == c2.wacc by { assert Get(c1, WACC) == Get(c2, WACC); }
    assert c1.fcfMargin == c2.fcfMargin by { assert Get(c1, FcfMargin) == Get(c2, FcfMargin); }
    assert c1.roe == c2.roe by { assert Get(c1, ROE) == Get(c2, ROE); }
    assert c1.grossMargin == c2.grossMargin by { assert Get(c1, GrossMargin) == Get(c2, GrossMargin); }
    assert p1.roic == p2.roic by { assert Get(p1, ROIC) == Get(p2, ROIC); }
    assert p1.fcfMargin == p2.fcfMargin by { assert Get(p1, FcfMargin) == Get(p2, FcfMargin); }
    assert p1.grossMargin == p2.grossMargin by { assert Get(p1, GrossMargin) == Get(p2, GrossMargin); }
  }

  lemma ReadsOnlyPharmaMature(c1: QuarterMetrics, c2: QuarterMetrics, p1: QuarterMetrics, p2: QuarterMetrics)
    requires AgreeOn(c1, c2, CurrentInputs(PharmaMature)) && AgreeOn(p1, p2, PreviousInputs(PharmaMature))
    ensures Score(PharmaMature, c1, p1) == Score(PharmaMature, c2, p2)
  {
    assert c1.pe == c2.pe by { assert Get(c1, PE) == Get(c2, PE); }
    assert c1.pb == c2.pb by { assert Get(c1, PB) == Get(c2, PB); }
    assert c1.roe == c2.roe by { assert Get(c1, ROE) == Get(c2, ROE); }
    assert c1.fcfMargin == c2.fcfMargin by { assert Get(c1, FcfMargin) == Get(c2, FcfMargin); }
    assert c1.grossMargin == c2.grossMargin by { assert Get(c1, GrossMargin) == Get(c2, GrossMargin); }
    assert p1.roe == p2.roe by { assert Get(p1, ROE) == Get(p2, ROE); }
    assert p1.fcfMargin == p2.fcfMargin by { assert Get(p1, FcfMargin) == Get(p2, FcfMargin); }
  }

  lemma ReadsOnlyFinancial(c1: QuarterMetrics, c2: QuarterMetrics, p1: QuarterMetrics, p2: QuarterMetrics)
    requires AgreeOn(c1, c2, CurrentInputs(Financial)) && AgreeOn(p1, p2, PreviousInputs(Financial))
    ensures Score(Financial, c1, p1) == Score(Financial, c2, p2)
  {
    assert c1.pb == c2.pb by { assert Get(c1, PB) == Get(c2, PB); }
    assert c1.roe == c2.roe by { assert Get(c1, ROE) == Get(c2, ROE); }
    assert c1.fcfMargin == c2.fcfMargin by { assert Get(c1, FcfMargin) == Get(c2, FcfMargin); }
    assert p1.roe == p2.roe by { assert Get(p1, ROE) == Get(p2, ROE); }
  }

  lemma ReadsOnlyManufacturing(c1: QuarterMetrics, c2: QuarterMetrics, p1: QuarterMetrics, p2: QuarterMetrics)
    requires AgreeOn(c1, c2, CurrentInputs(Manufacturing)) && AgreeOn(p1, p2, PreviousInputs(Manufacturing))
    ensures Score(Manufacturing, c1, p1) == Score(Manufacturing, c2, p2)
  {
    assert c1.pb == c2.pb by { assert Get(c1, PB) == Get(c2, PB); }
    assert c1.ps == c2.ps by { assert Get(c1, PS) == Get(c2, PS); }
    assert c1.roic == c2.roic by { assert Get(c1, ROIC) == Get(c2, ROIC); }
    assert c1.grossMargin == c2.grossMargin by { assert Get(c1, GrossMargin) == Get(c2, GrossMargin); }
    assert c1.fcfMargin == c2.fcfMargin by { assert Get(c1, FcfMargin) == Get(c2, FcfMargin); }
    assert c1.revenueYoy == c2.revenueYoy by { assert Get(c1, RevenueYoy) == Get(c2, RevenueYoy); }
    assert p1.roic == p2.roic by { assert Get(p1, ROIC) == Get(p2, ROIC); }
    assert p1.grossMargin == p2.grossMargin by { assert Get(p1, GrossMargin) == Get(p2, GrossMargin); }
    assert p1.revenueYoy == p2.revenueYoy by { assert Get(p1, RevenueYoy) == Get(p2, RevenueYoy); }
  }

  /** Passing no previous quarter is the same as passing one with every
      metric absent. */
  lemma AbsentPreviousIsNeutral(companyType: string, current: QuarterMetrics)
    ensures Analyze(companyType, current, None) == Analyze(companyType, current, Some(Absent))
  {
  }

  // ---------------------------------------------------------------- agreement with the table

  /** The three scores of `r` are those the tuning table gives. */
  predicate MatchesTable(r: S.AnalysisResult, t: CompanyType, current: QuarterMetrics, previous: QuarterMetrics) {
    r.quality == ReferenceQuality(ProfileOf(t), current)
    && r.valuation == ReferenceValuation(ProfileOf(t), current)
    && r.trend == ReferenceTrend(ProfileOf(t), current, previous)
  }

  /** Every archetype's scores are the ones its table row gives. */
  lemma ScoreMatchesTable(t: CompanyType, current: QuarterMetrics, previous: QuarterMetrics)
    ensures MatchesTable(Score(t, current, previous), t, current, previous)
  {
    match t
    case TechPlatform => ScoreMatchesTechPlatform(current, previous);
    case TechMature => ScoreMatchesTechMature(current, previous);
    case PharmaInnovation => ScoreMatchesPharmaInnovation(current, previous);
    case PharmaMature => ScoreMatchesPharmaMature(current, previous);
    case Financial => ScoreMatchesFinancial(current, previous);
    case Manufacturing => ScoreMatchesManufacturing(current, previous);
  }

  lemma ScoreMatchesTechPlatform(c: QuarterMetrics, prev: QuarterMetrics)
    ensures MatchesTable(Score(TechPlatform, c, prev), TechPlatform, c, prev)
  {
    var r := Score(TechPlatform, c, prev);
    RowTechPlatformQuality(c, prev);
    assert r.quality == ReferenceQuality(ProfileOf(TechPlatform), c);
    RowTechPlatformValuation(c, prev);
    assert r.valuation == ReferenceValuation(ProfileOf(TechPlatform), c);
    RowTechPlatformTrend(c, prev);
  }

  lemma ScoreMatchesTechMature(c: QuarterMetrics, prev: QuarterMetrics)
    ensures MatchesTable(Score(TechMature, c, prev), TechMature, c, prev)
  {
    RowTechMature(c, prev);
  }

  lemma ScoreMatchesPharmaInnovation(c: QuarterMetrics, prev: QuarterMetrics)
    ensures MatchesTable(Score(PharmaInnovation, c, prev), PharmaInnovation, c, prev)
  {
    RowPharmaInnovation(c, prev);
  }

  lemma ScoreMatchesPharmaMature(c: QuarterMetrics, prev: QuarterMetrics)
    ensures MatchesTable(Score(PharmaMature, c, prev), PharmaMature, c, prev)
  {
    RowPharmaMature(c, prev);
  }

  lemma ScoreMatchesFinancial(c: QuarterMetrics, prev: QuarterMetrics)
    ensures MatchesTable(Score(Financial, c, prev), Financial, c, prev)
  {
    RowFinancial(c, prev);
  }

  lemma ScoreMatchesManufacturing(c: QuarterMetrics, prev: QuarterMetrics)
    ensures MatchesTable(Score(Manufacturing, c, prev), Manufacturing, c, prev)
  {
    RowManufacturing(c, prev);
  }

  // The table rows written out as the scorers' formulas, one lemma per
  // archetype, so that each agreement proof above only has to compare them.

  lemma RowTechPlatformQuality(c: QuarterMetrics, prev: QuarterMetrics)
    ensures ReferenceQuality(ProfileOf(TechPlatform), c)
         == Clamp((OrZero(c.roic) * 0.35 + S.PositivePart(OrZero(c.roic) - OrZero(c.wacc)) * 0.35
                           + OrZero(c.grossMargin) * 0.15 + OrZero(c.fcfMargin) * 0.15) * 100.0)
  {
    assert QualityValue(Spread, c) == S.PositivePart(OrZero(c.roic) - OrZero(c.wacc));
    var v := ProfileOf(TechPlatform).quality;
    WeightedSumUnfold(v, term => QualityValue(term, c));
    assert QualitySum(v, c) == 0.35 * QualityValue(v[0].0, c) + 0.35 * QualityValue(v[1].0, c) + 0.15 * QualityValue(v[2].0, c) + 0.15 * QualityValue(v[3].0, c);
  }

  lemma RowTechPlatformValuation(c: QuarterMetrics, prev: QuarterMetrics)
    ensures ReferenceValuation(ProfileOf(TechPlatform), c)
         == Clamp(100.0 - (Normalize(c.ps, 5.0, 15.0, 30.0) * 0.40 + Normalize(c.pe, 20.0, 50.0, 100.0) * 0.30
                                    + Normalize(c.pb, 5.0, 15.0, 30.0) * 0.30))
  {
    var v := ProfileOf(TechPlatform).valuation;
    WeightedSumUnfold(v, b => BandValue(b, c));
    assert ValuationSum(v, c) == 0.40 * BandValue(v[0].0, c) + 0.30 * BandValue(v[1].0, c) + 0.30 * BandValue(v[2].0, c);
  }

  lemma RowTechPlatformTrend(c: QuarterMetrics, prev: QuarterMetrics)
    ensures ReferenceTrend(ProfileOf(TechPlatform), c, prev)
         == Clamp((Delta(c.roic, prev.roic) * 0.40 + Delta(c.grossMargin, prev.grossMargin) * 0.30
                         + (-Delta(c.capexRatio, prev.capexRatio)) * 0.30) * 100.0 + 50.0)
  {
    var v := ProfileOf(TechPlatform).trend;
    WeightedSumUnfold(v, term => TrendValue(term, c, prev));
    assert TrendSum(v, c, prev) == 0.40 * TrendValue(v[0].0, c, prev) + 0.30 * TrendValue(v[1].0, c, prev) + 0.30 * TrendValue(v[2].0, c, prev);
  }

  lemma RowTechMature(c: QuarterMetrics, prev: QuarterMetrics)
    ensures ReferenceQuality(ProfileOf(TechMature), c)
         == Clamp((OrZero(c.roic) * 0.45 + OrZero(c.fcfMargin) * 0.30 + OrZero(c.roe) * 0.25) * 100.0)
    ensures ReferenceValuation(ProfileOf(TechMature), c)
         == Clamp(100.0 - (Normalize(c.pe, 15.0, 25.0, 40.0) * 0.50 + Normalize(c.pb, 4.0, 8.0, 15.0) * 0.30
                                    + Normalize(c.ps, 4.0, 8.0, 15.0) * 0.20))
    ensures ReferenceTrend(ProfileOf(TechMature), c, prev)
         == Clamp((Delta(c.roic, prev.roic) * 0.50 + Delta(c.revenueYoy, prev.revenueYoy) * 0.50) * 100.0 + 50.0)
  {
    RowTechMatureQuality(c, prev);
    RowTechMatureValuation(c, prev);
    RowTechMatureTrend(c, prev);
  }

  lemma RowTechMatureQuality(c: QuarterMetrics, prev: QuarterMetrics)
    ensures ReferenceQuality(ProfileOf(TechMature), c)
         == Clamp((OrZero(c.roic) * 0.45 + OrZero(c.fcfMargin) * 0.30 + OrZero(c.roe) * 0.25) * 100.0)
  {
    var v := ProfileOf(TechMature).quality;
    WeightedSumUnfold(v, term => QualityValue(term, c));
    assert QualitySum(v, c) == 0.45 * QualityValue(v[0].0, c) + 0.30 * QualityValue(v[1].0, c) + 0.25 * QualityValue(v[2].0, c);
  }

  lemma RowTechMatureValuation(c: QuarterMetrics, prev: QuarterMetrics)
    ensures ReferenceValuation(ProfileOf(TechMature), c)
         == Clamp(100.0 - (Normalize(c.pe, 15.0, 25.0, 40.0) * 0.50 + Normalize(c.pb, 4.0, 8.0, 15.0) * 0.30
                                    + Normalize(c.ps, 4.0, 8.0, 15.0) * 0.20))
  {
    var v := ProfileOf(TechMature).valuation;
    WeightedSumUnfold(v, b => BandValue(b, c));
    assert ValuationSum(v, c) == 0.50 * BandValue(v[0].0, c) + 0.30 * BandValue(v[1].0, c) + 0.20 * BandValue(v[2].0, c);
  }

  lemma RowTechMatureTrend(c: QuarterMetrics, prev: QuarterMetrics)
    ensures ReferenceTrend(ProfileOf(TechMature), c, prev)
         == Clamp((Delta(c.roic, prev.roic) * 0.50 + Delta(c.revenueYoy, prev.revenueYoy) * 0.50) * 100.0 + 50.0)
  {
    var v := ProfileOf(TechMature).trend;
    WeightedSumUnfold(v, term => TrendValue(term, c, prev));
    assert TrendSum(v, c, prev) == 0.50 * TrendValue(v[0].0, c, prev) + 0.50 * TrendValue(v[1].0, c, prev);
  }

  lemma RowPharmaInnovation(c: QuarterMetrics, prev: QuarterMetrics)
    ensures ReferenceQuality(ProfileOf(PharmaInnovation), c)
         == Clamp((OrZero(c.roic) * 0.40 + S.PositivePart(OrZero(c.roic) - OrZero(c.wacc)) * 0.30
                           + OrZero(c.fcfMargin) * 0.20 + OrZero(c.roe) * 0.10) * 100.0)
    ensures ReferenceValuation(ProfileOf(PharmaInnovation), c)
         == Clamp(100.0 - (Normalize(c.pb, 8.0, 20.0, 40.0) * 0.45 + Normalize(c.pe, 20.0, 50.0, 100.0) * 0.35
                                    + Normalize(c.ps, 8.0, 20.0, 40.0) * 0.20))
    ensures ReferenceTrend(ProfileOf(PharmaInnovation), c, prev)
         == Clamp((Delta(c.roic, prev.roic) * 0.40 + Delta(c.fcfMargin, prev.fcfMargin) * 0.30
                         + Delta(c.grossMargin, prev.grossMargin) * 0.30) * 100.0 + 50.0)
  {
    RowPharmaInnovationQuality(c, prev);
    RowPharmaInnovationValuation(c, prev);
    RowPharmaInnovationTrend(c, prev);
  }

  lemma RowPharmaInnovationQuality(c: QuarterMetrics, prev: QuarterMetrics)
    ensures ReferenceQuality(ProfileOf(PharmaInnovation), c)
         == Clamp((OrZero(c.roic) * 0.40 + S.PositivePart(OrZero(c.roic) - OrZero(c.wacc)) * 0.30
                           + OrZero(c.fcfMargin) * 0.20 + OrZero(c.roe) * 0.10) * 100.0)
  {
    assert QualityValue(Spread, c) == S.PositivePart(OrZero(c.roic) - OrZero(c.wacc));
    var v := ProfileOf(PharmaInnovation).quality;
    WeightedSumUnfold(v, term => QualityValue(term, c));
    assert QualitySum(v, c) == 0.40 * QualityValue(v[0].0, c) + 0.30 * QualityValue(v[1].0, c) + 0.20 * QualityValue(v[2].0, c) + 0.10 * QualityValue(v[3].0, c);
  }

  lemma RowPharmaInnovationValuation(c: QuarterMetrics, prev: QuarterMetrics)
    ensures ReferenceValuation(ProfileOf(PharmaInnovation), c)
         == Clamp(100.0 - (Normalize(c.pb, 8.0, 20.0, 40.0) * 0.45 + Normalize(c.pe, 20.0, 50.0, 100.0) * 0.35
                                    + Normalize(c.ps, 8.0, 20.0, 40.0) * 0.20))
  {
    var v := ProfileOf(PharmaInnovation).valuation;
    WeightedSumUnfold(v, b => BandValue(b, c));
    assert ValuationSum(v, c) == 0.45 * BandValue(v[0].0, c) + 0.35 * BandValue(v[1].0, c) + 0.20 * BandValue(v[2].0, c);
  }

  lemma RowPharmaInnovationTrend(c: QuarterMetrics, prev: QuarterMetrics)
    ensures ReferenceTrend(ProfileOf(PharmaInnovation), c, prev)
         == Clamp((Delta(c.roic, prev.roic) * 0.40 + Delta(c.fcfMargin, prev.fcfMargin) * 0.30
                         + Delta(c.grossMargin, prev.grossMargin) * 0.30) * 100.0 + 50.0)
  {
    var v := ProfileOf(PharmaInnovation).trend;
    WeightedSumUnfold(v, term => TrendValue(term, c, prev));
    assert TrendSum(v, c, prev) == 0.40 * TrendValue(v[0].0, c, prev) + 0.30 * TrendValue(v[1].0, c, prev) + 0.30 * TrendValue(v[2].0, c, prev);
  }

  lemma RowPharmaMature(c: QuarterMetrics, prev: QuarterMetrics)
    ensures ReferenceQuality(ProfileOf(PharmaMature), c)
         == Clamp((OrZero(c.roe) * 0.50 + OrZero(c.fcfMargin) * 0.30 + OrZero(c.grossMargin) * 0.20) * 100.0)
    ensures ReferenceValuation(ProfileOf(PharmaMature), c)
         == Clamp(100.0 - (Normalize(c.pb, 1.0, 3.0, 6.0) * 0.60 + Normalize(c.pe, 10.0, 18.0, 30.0) * 0.40))
    ensures ReferenceTrend(ProfileOf(PharmaMature), c, prev)
         == Clamp((Delta(c.roe, prev.roe) * 0.60 + Delta(c.fcfMargin, prev.fcfMargin) * 0.40) * 100.0 + 50.0)
  {
    RowPharmaMatureQuality(c, prev);
    RowPharmaMatureValuation(c, prev);
    RowPharmaMatureTrend(c, prev);
  }

  lemma RowPharmaMatureQuality(c: QuarterMetrics, prev: QuarterMetrics)
    ensures ReferenceQuality(ProfileOf(PharmaMature), c)
         == Clamp((OrZero(c.roe) * 0.50 + OrZero(c.fcfMargin) * 0.30 + OrZero(c.grossMargin) * 0.20) * 100.0)
  {
    var v := ProfileOf(PharmaMature).quality;
    WeightedSumUnfold(v, term => QualityValue(term, c));
    assert QualitySum(v, c) == 0.50 * QualityValue(v[0].0, c) + 0.30 * QualityValue(v[1].0, c) + 0.20 * QualityValue(v[2].0, c);
  }

  lemma RowPharmaMatureValuation(c: QuarterMetrics, prev: QuarterMetrics)
    ensures ReferenceValuation(ProfileOf(PharmaMature), c)
         == Clamp(100.0 - (Normalize(c.pb, 1.0, 3.0, 6.0) * 0.60 + Normalize(c.pe, 10.0, 18.0, 30.0) * 0.40))
  {
    var v := ProfileOf(PharmaMature).valuation;
    WeightedSumUnfold(v, b => BandValue(b, c));
    assert ValuationSum(v, c) == 0.60 * BandValue(v[0].0, c) + 0.40 * BandValue(v[1].0, c);
  }

  lemma RowPharmaMatureTrend(c: QuarterMetrics, prev: QuarterMetrics)
    ensures ReferenceTrend(ProfileOf(PharmaMature), c, prev)
         == Clamp((Delta(c.roe, prev.roe) * 0.60 + Delta(c.fcfMargin, prev.fcfMargin) * 0.40) * 100.0 + 50.0)
  {
    var v := ProfileOf(PharmaMature).trend;
    WeightedSumUnfold(v, term => TrendValue(term, c, prev));
    assert TrendSum(v, c, prev) == 0.60 * TrendValue(v[0].0, c, prev) + 0.40 * TrendValue(v[1].0, c, prev);
  }

  lemma RowFinancial(c: QuarterMetrics, prev: QuarterMetrics)
    ensures ReferenceQuality(ProfileOf(Financial), c)
         == Clamp(if OrZero(c.roe) < 12.0 then 0.0 else (OrZero(c.roe) * 0.60 + OrZero(c.fcfMargin) * 0.40) * 100.0)
    ensures ReferenceValuation(ProfileOf(Financial), c)
         == Clamp(100.0 - Normalize(c.pb, 0.8, 1.5, 3.0))
    ensures ReferenceTrend(ProfileOf(Financial), c, prev)
         == Clamp(Delta(c.roe, prev.roe) * 100.0 + 50.0)
  {
    RowFinancialQuality(c, prev);
    RowFinancialValuation(c, prev);
    RowFinancialTrend(c, prev);
  }

  lemma RowFinancialQuality(c: QuarterMetrics, prev: QuarterMetrics)
    ensures ReferenceQuality(ProfileOf(Financial), c)
         == Clamp(if OrZero(c.roe) < 12.0 then 0.0 else (OrZero(c.roe) * 0.60 + OrZero(c.fcfMargin) * 0.40) * 100.0)
  {
    var v := ProfileOf(Financial).quality;
    WeightedSumUnfold(v, term => QualityValue(term, c));
    assert QualitySum(v, c) == 0.60 * QualityValue(v[0].0, c) + 0.40 * QualityValue(v[1].0, c);
  }

  lemma RowFinancialValuation(c: QuarterMetrics, prev: QuarterMetrics)
    ensures ReferenceValuation(ProfileOf(Financial), c)
         == Clamp(100.0 - Normalize(c.pb, 0.8, 1.5, 3.0))
  {
    var v := ProfileOf(Financial).valuation;
    WeightedSumUnfold(v, b => BandValue(b, c));
    assert ValuationSum(v, c) == 1.0 * BandValue(v[0].0, c);
  }

  lemma RowFinancialTrend(c: QuarterMetrics, prev: QuarterMetrics)
    ensures ReferenceTrend(ProfileOf(Financial), c, prev)
         == Clamp(Delta(c.roe, prev.roe) * 100.0 + 50.0)
  {
    var v := ProfileOf(Financial).trend;
    WeightedSumUnfold(v, term => TrendValue(term, c, prev));
    assert TrendSum(v, c, prev) == 1.0 * TrendValue(v[0].0, c, prev);
  }

  lemma RowManufacturing(c: QuarterMetrics, prev: QuarterMetrics)
    ensures ReferenceQuality(ProfileOf(Manufacturing), c)
         == Clamp((OrZero(c.roic) * 0.40 + OrZero(c.grossMargin) * 0.30 + OrZero(c.fcfMargin) * 0.30) * 100.0)
    ensures ReferenceValuation(ProfileOf(Manufacturing), c)
         == Clamp(100.0 - (Normalize(c.pb, 1.0, 2.5, 5.0) * 0.50 + Normalize(c.ps, 0.5, 1.5, 3.0) * 0.50))
    ensures ReferenceTrend(ProfileOf(Manufacturing), c, prev)
         == Clamp((Delta(c.roic, prev.roic) * 0.40 + Delta(c.grossMargin, prev.grossMargin) * 0.40
                         + Delta(c.revenueYoy, prev.revenueYoy) * 0.20) * 100.0 + 50.0)
  {
    RowManufacturingQuality(c, prev);
    RowManufacturingValuation(c, prev);
    RowManufacturingTrend(c, prev);
  }

  lemma RowManufacturingQuality(c: QuarterMetrics, prev: QuarterMetrics)
    ensures ReferenceQuality(ProfileOf(Manufacturing), c)
         == Clamp((OrZero(c.roic) * 0.40 + OrZero(c.grossMargin) * 0.30 + OrZero(c.fcfMargin) * 0.30) * 100.0)
  {
    var v := ProfileOf(Manufacturing).quality;
    WeightedSumUnfold(v, term => QualityValue(term, c));
    assert QualitySum(v, c) == 0.40 * QualityValue(v[0].0, c) + 0.30 * QualityValue(v[1].0, c) + 0.30 * QualityValue(v[2].0, c);
  }

  lemma RowManufacturingValuation(c: QuarterMetrics, prev: QuarterMetrics)
    ensures ReferenceValuation(ProfileOf(Manufacturing), c)
         == Clamp(100.0 - (Normalize(c.pb, 1.0, 2.5, 5.0) * 0.50 + Normalize(c.ps, 0.5, 1.5, 3.0) * 0.50))
  {
    var v := ProfileOf(Manufacturing).valuation;
    WeightedSumUnfold(v, b => BandValue(b, c));
    assert ValuationSum(v, c) == 0.50 * BandValue(v[0].0, c) + 0.50 * BandValue(v[1].0, c);
  }

  lemma RowManufacturingTrend(c: QuarterMetrics, prev: QuarterMetrics)
    ensures ReferenceTrend(ProfileOf(Manufacturing), c, prev)
         == Clamp((Delta(c.roic, prev.roic) * 0.40 + Delta(c.grossMargin, prev.grossMargin) * 0.40
                         + Delta(c.revenueYoy, prev.revenueYoy) * 0.20) * 100.0 + 50.0)
  {
    var v := ProfileOf(Manufacturing).trend;
    WeightedSumUnfold(v, term => TrendValue(term, c, prev));
    assert TrendSum(v, c, prev) == 0.40 * TrendValue(v[0].0, c, prev) + 0.40 * TrendValue(v[1].0, c, prev) + 0.20 * TrendValue(v[2].0, c, prev);
  }

  // ---------------------------------------------------------------- properties of the entry point

  /** A successful analysis scores exactly as the archetype's table row
      says, with a missing previous quarter read as an empty one. */
  lemma AnalyzeMatchesTable(t: CompanyType, current: QuarterMetrics, previous: Option<QuarterMetrics>)
    ensures Analyze(t.Tag(), current, previous).Success?
    ensures MatchesTable(Analyze(t.Tag(), current, previous).value, t, current, previous.GetOr(Absent))
  {
    ParseTag(t);
    ScoreMatchesTable(t, current, previous.GetOr(Absent));
  }

  /** The first quarter on record has nothing to compare against: its trend
      is neutral, whatever the archetype. */
  lemma FirstQuarterTrendIsNeutral(companyType: string, current: QuarterMetrics)
    requires companyType in AllTags
    ensures Analyze(companyType, current, None).value.trend == 50.0
  {
    var t := Parse(companyType).value;
    AnalyzeMatchesTable(t, current, None);
    TrendSumWithoutPrevious(ProfileOf(t).trend, current);
  }

  /** Raising any one multiple (or any other metric) of the current quarter
      never makes the company look cheaper. */
  lemma AnalyzeValuationAntitone(companyType: string, current: QuarterMetrics,
                                 previous: Option<QuarterMetrics>, f: Field, x: real, y: real)
    requires companyType in AllTags && x <= y
    ensures Analyze(companyType, With(current, f, Some(y)), previous).value.valuation
            <= Analyze(companyType, With(current, f, Some(x)), previous).value.valuation
  {
    var t := Parse(companyType).value;
    AnalyzeMatchesTable(t, With(current, f, Some(x)), previous);
    AnalyzeMatchesTable(t, With(current, f, Some(y)), previous);
    ValuationAntitone(t, current, f, x, y);
  }

  // ---------------------------------------------------------------- worked examples

  /** A platform company priced at 40x earnings, 10x sales and 8x book, with
      an 18% ROIC over a 9% WACC, 70% gross and 30% free-cash-flow margins
      and a 15% capex ratio. */
  const PlatformSample := QuarterMetrics(
    pe := Some(40.0), pb := Some(8.0), ps := Some(10.0), roe := None, roic := Some(18.0),
    wacc := Some(9.0), revenueYoy := None, grossMargin := Some(70.0), fcfMargin := Some(30.0),
    capexRatio := Some(15.0))

  /** With no earlier quarter it scores top quality, fair value and a
      neutral trend, earns the one high-quality fair-value label, and its
      digest reports strong value creation. */
  lemma PlatformExample()
    ensures var r := Analyze("TECH_PLATFORM", PlatformSample, None);
            r.Success? && r.value.quality == 100.0 && r.value.valuation == 75.5 && r.value.trend == 50.0
            && r.value.labels == [S.FairValueHighQuality]
            && r.value.summary[3] == RoicWaccLine(StrongValueCreation)
  {
    var m := PlatformSample;
    var r := Score(TechPlatform, m, Absent);
    assert Analyze("TECH_PLATFORM", m, None) == Success(r);
    PlatformSampleScores();
    var vocabulary := S.PlatformVocabulary;
    assert Distinct(vocabulary);
    EmptySubsequence(vocabulary[1..]);
    assert IsSubsequence([S.FairValueHighQuality], vocabulary);
    SubsequenceByMembers(r.labels, [S.FairValueHighQuality], vocabulary);
  }

  lemma PlatformSampleScores()
    ensures var r := Score(TechPlatform, PlatformSample, Absent);
            r.quality == 100.0 && r.valuation == 75.5 && r.trend == 50.0
  {
    var m := PlatformSample;
    ScoreMatchesTechPlatform(m, Absent);
    RowTechPlatformQuality(m, Absent);
    RowTechPlatformValuation(m, Absent);
    RowTechPlatformTrend(m, Absent);
    PlatformSampleBands();
  }

  /** Where the sample's three multiples fall in their bands. */
  lemma PlatformSampleBands()
    ensures Normalize(PlatformSample.ps, 5.0, 15.0, 30.0) == 25.0
    ensures Normalize(PlatformSample.pe, 20.0, 50.0, 100.0) == 100.0 / 3.0
    ensures Normalize(PlatformSample.pb, 5.0, 15.0, 30.0) == 15.0
  {
  }

  /** A bank earning 10% on equity at 1.2x book: the ROE floor zeroes its
      quality, its valuation is 100 - 200/7, and no label applies. */
  lemma FinancialExample()
    ensures var m := Absent.(pb := Some(1.2), roe := Some(10.0), fcfMargin := Some(20.0));
            var r := Analyze("FINANCIAL", m, None);
            r.Success? && r.value.quality == 0.0 && r.value.valuation == 500.0 / 7.0
            && r.value.trend == 50.0 && r.value.labels == []
  {
    var m := Absent.(pb := Some(1.2), roe := Some(10.0), fcfMargin := Some(20.0));
    assert Normalize(m.pb, 0.8, 1.5, 3.0) == 200.0 / 7.0;
    var r := S.Financial(m.pb, m.roe, m.fcfMargin, None);
    assert Analyze("FINANCIAL", m, None) == Success(r);
    var vocabulary := S.FinancialVocabulary;
    assert Distinct(vocabulary);
    EmptySubsequence(vocabulary);
    SubsequenceByMembers(r.labels, [], vocabulary);
  }
}
