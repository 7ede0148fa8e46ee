/** The quarter request bodies: `QuarterCreate` and `QuarterUpdate` both
    inherit the quarter-id pattern and the ten optional metric fields of
    `QuarterBase`; only `QuarterCreate` adds a required company id. */
module Schemas {
  import opened Wrappers
  import opened Metrics
  import QuarterIds

  datatype SchemaKind = QuarterCreate | QuarterUpdate

  datatype ValidationError = QuarterPatternMismatch | CompanyIdMissing

  /** A validated request body. `companyId` is only kept for creation. */
  datatype QuarterPayload = QuarterPayload(quarter: string, companyId: Option<int>, metrics: QuarterMetrics)

  /** Validates a request body: the quarter id must match the pattern, a
      creation must carry a company id, and every metric that was not
      supplied is absent. */
  function Validate(kind: SchemaKind, quarter: string, companyId: Option<int>,
                    supplied: map<Field, Option<real>>): (r: Result<QuarterPayload, ValidationError>)
    ensures r.Success? <==> QuarterIds.Valid(quarter) && (kind == QuarterCreate ==> companyId.Some?)
    ensures !QuarterIds.Valid(quarter) ==> r == Failure(QuarterPatternMismatch)
    ensures r.Success? ==> r.value.quarter == quarter
    ensures r.Success? ==> forall f :: Get(r.value.metrics, f) == (if f in supplied then supplied[f] else None)
    ensures r.Success? && kind == QuarterUpdate ==> r.value.companyId.None?
  {
    if !QuarterIds.Valid(quarter) then Failure(QuarterPatternMismatch)
    else match kind
      case QuarterCreate =>
        if companyId.None? then Failure(CompanyIdMissing)
        else Success(QuarterPayload(quarter, companyId, FromFields(supplied)))
      case QuarterUpdate =>
        Success(QuarterPayload(quarter, None, FromFields(supplied)))
  }

  /** Every metric is optional: a body with a valid id and no metrics is
      accepted, with every metric absent. */
  lemma MetricsDefaultAbsent(kind: SchemaKind, quarter: string, companyId: Option<int>)
    requires QuarterIds.Valid(quarter) && (kind == QuarterCreate ==> companyId.Some?)
    ensures Validate(kind, quarter, companyId, map[]) == Success(
      QuarterPayload(quarter, if kind == QuarterCreate then companyId else None, Absent))
  {
    var m := FromFields(map[]);
    assert Get(m, PE) == None && Get(m, PB) == None && Get(m, PS) == None;
    assert Get(m, ROE) == None && Get(m, ROIC) == None && Get(m, WACC) == None;
    assert Get(m, RevenueYoy) == None && Get(m, GrossMargin) == None;
    assert Get(m, FcfMargin) == None && Get(m, CapexRatio) == None;
  }

  /** An update is not "all optional": without a well-formed quarter id it
      is rejected whatever metrics it carries. */
  lemma UpdateStillNeedsQuarterId(quarter: string, supplied: map<Field, Option<real>>)
    ensures Validate(QuarterUpdate, quarter, None, supplied).Success? <==> QuarterIds.Valid(quarter)
  {
  }
}
