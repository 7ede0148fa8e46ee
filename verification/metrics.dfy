/** The ten optional per-quarter metrics and the two ways the scoring code
    reads a possibly-missing value. */
module Metrics {
  import opened Wrappers

  /** The metric fields of a quarter, named as in the storage schema. */
  datatype Field = PE | PB | PS | ROE | ROIC | WACC | RevenueYoy | GrossMargin | FcfMargin | CapexRatio

  /** One quarter's metrics; every field may be absent. */
  datatype QuarterMetrics = QuarterMetrics(
    pe: Option<real>,
    pb: Option<real>,
    ps: Option<real>,
    roe: Option<real>,
    roic: Option<real>,
    wacc: Option<real>,
    revenueYoy: Option<real>,
    grossMargin: Option<real>,
    fcfMargin: Option<real>,
    capexRatio: Option<real>)

  /** A record with every field absent (an empty mapping). */
  const Absent: QuarterMetrics :=
    QuarterMetrics(None, None, None, None, None, None, None, None, None, None)

  /** The value stored under field `f` (mapping lookup by key). */
  function Get(m: QuarterMetrics, f: Field): Option<real> {
    match f
    case PE => m.pe
    case PB => m.pb
    case PS => m.ps
    case ROE => m.roe
    case ROIC => m.roic
    case WACC => m.wacc
    case RevenueYoy => m.revenueYoy
    case GrossMargin => m.grossMargin
    case FcfMargin => m.fcfMargin
    case CapexRatio => m.capexRatio
  }

  /** Builds a record from the fields that were supplied; every other field
      is absent. */
  function FromFields(supplied: map<Field, Option<real>>): (m: QuarterMetrics)
    ensures forall f :: Get(m, f) == (if f in supplied then supplied[f] else None)
  {
    var at := (f: Field) => if f in supplied then supplied[f] else None;
    QuarterMetrics(at(PE), at(PB), at(PS), at(ROE), at(ROIC), at(WACC),
                   at(RevenueYoy), at(GrossMargin), at(FcfMargin), at(CapexRatio))
  }

  /** Python truthiness of an optional number: present and non-zero. */
  predicate Truthy(x: Option<real>) {
    x.Some? && x.value != 0.0
  }

  /** `x if x else 0`. Because a falsy present value is 0 itself, this is
      the plain value-or-zero: zero and absence only differ in guards. */
  function OrZero(x: Option<real>): (r: real)
    ensures r == x.GetOr(0.0)
    ensures r != 0.0 <==> Truthy(x)
  {
    if Truthy(x) then x.value else 0.0
  }
}
