# Equity insight engine: a Dafny model of the deterministic core

The backend of this stock-analysis application keeps quarterly valuation and
profitability ratios per company. It scores each quarter with a
deterministic, archetype-specific engine, and it also asks a language model
for a narrative whose reply it parses. This project models, over exact
reals and sequences of characters:

- the scoring engine in `backend/system_analysis_engine.py`:
  - the piecewise-linear `normalize` map;
  - the quarter-over-quarter `calculate_delta`;
  - the five-tier ROIC−WACC classifier;
  - the six archetype scorers (platform tech, mature tech, innovative
    pharma, mature pharma, financial, manufacturing). Each produces a
    quality, a valuation and a trend score, an ordered label list and a
    summary;
  - the `analyze` dispatcher, which routes on the company-type tag defined
    in `backend/models.py`;
- `parse_comprehensive_analysis` in `backend/ai_service.py`. It extracts the
  analysis text, the main label and the risk label from a reply by regular
  expression;
- the request schema in `backend/schemas.py`:
  - the quarter-id pattern `^\d{4}-Q[1-4]$`;
  - the ten optional metrics;
  - `QuarterUpdate`;
- the rule the persistence layer (`backend/crud.py`) uses to pick the
  previous quarter. It takes the greatest stored id that is strictly below
  the current one as a string.

Modules, one per concern:

| file | module | concern |
|---|---|---|
| `wrappers.dfy` | `Wrappers` | `Option` and `Result` |
| `metrics.dfy` | `Metrics` | the ten optional metrics, and Python truthiness of a metric |
| `scoring.dfy` | `Scoring` | `normalize`, the clamp, `calculate_delta`, the ROIC−WACC tiers |
| `labels.dfy` | `Labels` | ordered label rules and the subsequence facts about them |
| `summary.dfy` | `Summary` | the summary as structured lines, its rendering, the PB bands |
| `scorers.dfy` | `Scorers` | the six archetype scorers |
| `tuning.dfy` | `Tuning` | an independent table of every archetype's weights and breakpoints, with a generic weighted sum |
| `company_types.dfy` | `CompanyTypes` | the six company-type tags |
| `dispatch.dfy` | `Dispatch` | `analyze`: routing, its error path, and agreement with the table |
| `text.dfy` | `Text` | Python whitespace, `str.strip`, substring search, `str.join` |
| `parser.dfy` | `ComprehensiveParser` | the reply parser and the reply round trip |
| `quarter_ids.dfy` | `QuarterIds` | the quarter-id pattern, its chronological order, previous-quarter selection |
| `schemas.dfy` | `Schemas` | creation and update payload validation |

Each scorer is checked against its partner. `Tuning.ProfileOf` writes every
archetype's coefficients down as data: quality terms, valuation bands and
trend terms with their weights, plus the financial ROE floor. Three
reference functions score any profile with one generic weighted sum.
`Dispatch.AnalyzeMatchesTable` proves that, for every input, each
hand-written scorer computes exactly the reference scores of its table row.
Bounds, the neutral first-quarter trend and valuation antitonicity are then
proved once, on the table, for all six archetypes.

## Model

| member | source | states |
|---|---|---|
| `Scoring.Normalize` | backend/system_analysis_engine.py:7-30 | Always within [0, 100], for any breakpoints. An absent value gives 50. A value at or below `low` gives 0. Values in (low, mid] fall at or below 50. Values above both `low` and `mid` are at least 50. |
| `Scoring.NormalizeBreakpoints` | backend/system_analysis_engine.py:7-30 | For low < mid < high, the map is exactly 0 at `low`, 50 at `mid` and 100 at `high`. |
| `Scoring.NormalizeMonotone` | backend/system_analysis_engine.py:7-30 | Over present values the map is non-decreasing, for any breakpoints. |
| `Scoring.NormalizeClosedForm` | backend/system_analysis_engine.py:7-30 | For ordered breakpoints the map equals an independent closed form: 50 times the clamped ramp on [low, mid] plus 50 times the clamped ramp on [mid, high]. |
| `Scoring.Clamp` | backend/system_analysis_engine.py:114-116 | `max(0, min(100, x))` lies in [0, 100], leaves in-range scores alone, and sends low values to 0 and high values to 100. |
| `Scoring.Delta` | backend/system_analysis_engine.py:52-56 | 0 when either quarter lacks the metric; otherwise the amount that, added to the previous value, gives the current one. A present 0 counts as a value. |
| `Scoring.ClassifyRoicWacc` | backend/system_analysis_engine.py:33-49 | "Insufficient data" exactly when ROIC or WACC is absent. Otherwise exactly one of the five tiers, chosen by diff ≥ 8, ≥ 3, ≥ 0, ≥ −5, or else. |
| `Scoring.TierMonotone` | backend/system_analysis_engine.py:33-49 | A larger ROIC−WACC spread never yields a lower tier. |
| `Metrics.OrZero` | backend/system_analysis_engine.py:367-368 | `x if x else 0`: non-zero exactly when the metric is truthy (present and non-zero), and the metric's value otherwise defaulting to 0. |
| `Metrics.FromFields` | backend/schemas.py:36-45 | A record built from the supplied fields holds each supplied value, and every other metric is absent. |
| `Labels.Select` | backend/system_analysis_engine.py:119-131 | The chain of `if …: labels.append(…)` statements: every rule that fires contributes its tag, every emitted tag comes from a rule that fires, and no more tags are emitted than there are rules. |
| `Labels.SelectFacts` | backend/system_analysis_engine.py:119-131 | With distinct tags, a tag is emitted exactly when its rule fires. The emitted labels keep the vocabulary's order and come only from it. |
| `Labels.SubsequenceLength` | backend/system_analysis_engine.py:194-200 | A label list drawn in order from a vocabulary is no longer than the vocabulary. |
| `Labels.SubsequenceMissing` | backend/system_analysis_engine.py:119-131 | If one vocabulary tag is missing from the list, the list is strictly shorter than the vocabulary. This gives the bound of three on platform tech, whose two high-quality labels exclude each other. |
| `Labels.SubsequenceByMembers` | backend/system_analysis_engine.py:119-131 | Two in-order selections from a duplicate-free vocabulary that contain the same tags are equal. |
| `Summary.ClassifyPb` | backend/system_analysis_engine.py:277-286 | Each PB value falls into exactly one band: below 10, 10 to 20, above 20 up to 35, and above 35. |
| `Summary.PbBandMonotone` | backend/system_analysis_engine.py:277-286 | A higher PB never falls into a lower band. |
| `Summary.Digest` | backend/system_analysis_engine.py:134-139 | The lines are quality, valuation and trend, in that order. The archetype's extra lines follow. A labels line comes last exactly when there are labels. |
| `Summary.LineText` | backend/system_analysis_engine.py:134-139 | One summary line from its template: the quality, valuation, trend, ROIC−WACC and PB-band lines each end with a line break. The labels line starts with "标签：". |
| `Summary.Render` | backend/system_analysis_engine.py:202-206 | The summary is the lines' texts concatenated with `+=`, so a summary whose last line is not the labels line ends with a line break. |
| `Summary.RenderDigest` | backend/system_analysis_engine.py:202-206 | The rendered summary is the three score lines, each ending in a line break, then the extra lines, then "标签：" with the labels joined by ", " when there are any. |
| `Summary.EndsWithBreakIffNoLabels` | backend/system_analysis_engine.py:459-463 | The rendered summary ends with a line break exactly when the label list is empty. |
| `Scorers.TechPlatform` | backend/system_analysis_engine.py:63-147 | All scores lie in [0, 100]. Valuation is 100 minus the 0.4/0.3/0.3 PS/PE/PB bands, with no clamping. Unchanged ROIC, gross margin and capex give a trend of 50. Each label appears exactly under its rule. The two high-quality labels exclude each other, so there are at most 3 labels. The summary always carries the ROIC−WACC tier line. |
| `Scorers.TechMature` | backend/system_analysis_engine.py:150-214 | All scores lie in [0, 100]. Valuation is 100 minus the 0.5/0.3/0.2 PE/PB/PS bands. Unchanged ROIC and revenue growth give a trend of 50. Labels fire at quality ≥ 85, valuation ≥ 70 and trend ≥ 70, in that order. |
| `Scorers.PbExtra` | backend/system_analysis_engine.py:274-288 | The innovative-pharma summary gets a PB-band line exactly when PB is truthy, naming that PB's band. |
| `Scorers.PharmaInnovation` | backend/system_analysis_engine.py:217-296 | All scores lie in [0, 100]. Valuation is 100 minus the 0.45/0.35/0.2 PB/PE/PS bands. The premium label requires quality ≥ 80 and PB > 30. The slowdown label requires PB > 35 and trend < 40. The summary inserts the PB band line. |
| `Scorers.PharmaMature` | backend/system_analysis_engine.py:299-357 | All scores lie in [0, 100]. Valuation is 100 minus the 0.6/0.4 PB/PE bands. Unchanged ROE and FCF margin give a trend of 50. Labels fire at quality ≥ 75 and valuation ≥ 70. |
| `Scorers.Financial` | backend/system_analysis_engine.py:360-406 | All scores lie in [0, 100]. Quality is 0 whenever ROE is absent, 0 or below 12. The high-ROE label fires exactly at ROE ≥ 15. The deep-value label fires exactly when PB is absent, 0 or below 1. |
| `Scorers.Manufacturing` | backend/system_analysis_engine.py:409-471 | All scores lie in [0, 100]. Valuation is 100 minus the equal PB/PS bands. The trough label requires quality and valuation ≥ 70. The recovery label requires trend ≥ 70. |
| `CompanyTypes.Parse` | backend/models.py:9-16 | A tag names a company type exactly when it is one of the six enum values, and it names the type whose value it is. |
| `Tuning.TableWellFormed` | backend/system_analysis_engine.py:96-100 | In every archetype's row the quality, valuation and trend weights are all non-negative, and the valuation weights sum to 1. |
| `Tuning.ValuationNeedsNoClamp` | backend/system_analysis_engine.py:378 | For every archetype and input, 100 minus the weighted bands already lies in [0, 100], so the valuation clamp never changes it. |
| `Tuning.TrendSumWithoutPrevious` | backend/system_analysis_engine.py:103-112 | Against a quarter with every metric absent, every trend term is 0. |
| `Tuning.ValuationAntitone` | backend/system_analysis_engine.py:322-325 | In every archetype, raising any one metric never raises the valuation score. |
| `Dispatch.Score` | backend/system_analysis_engine.py:489-557 | The routed scorer's scores lie in [0, 100], with at most three labels. |
| `Dispatch.Analyze` | backend/system_analysis_engine.py:474-559 | The call succeeds exactly when the tag is one of the six company types. Any other tag fails with an error carrying that tag. A success has in-range scores and at most three labels. |
| `Dispatch.ReadsOnlyItsInputs` | backend/system_analysis_engine.py:539-545 | Each archetype reads only its own current and previous fields. Two inputs that agree on those fields give identical results. For example, the financial result ignores PE, PS, ROIC, WACC, gross margin, revenue growth and capex. |
| `Dispatch.ScoreMatchesTable` | backend/system_analysis_engine.py:63-471 | Each of the six scorers computes exactly the quality, valuation and trend scores that the reference weighted sums give for its table row. |
| `Dispatch.AnalyzeMatchesTable` | backend/system_analysis_engine.py:487-559 | Every company-type tag succeeds and scores as its table row says. A missing previous quarter is read as one with every metric absent. |
| `Dispatch.FirstQuarterTrendIsNeutral` | backend/system_analysis_engine.py:487 | With no previous quarter, every archetype's trend score is exactly 50. |
| `Dispatch.AnalyzeValuationAntitone` | backend/system_analysis_engine.py:96-101 | Through the dispatcher, raising any one current metric never raises the valuation score. |
| `Dispatch.PlatformExample` | backend/system_analysis_engine.py:83-139 | Take a platform company with PE 40, PS 10, PB 8, ROIC 18, WACC 9, gross margin 70, FCF margin 30 and capex 15, and no previous quarter. It scores quality 100, valuation 75.5 and trend 50, has the single label "高质量 · 估值合理", and is in the strong-value-creation tier. |
| `Dispatch.FinancialExample` | backend/system_analysis_engine.py:367-392 | A bank with ROE 10, PB 1.2 and FCF margin 20 scores quality 0 (below the ROE floor), valuation 500/7 and trend 50, and has no labels. |
| `Text.TrimStart` | backend/ai_service.py:126 | The leading half of `.strip()`: the result is a suffix of the input, everything it drops is whitespace, and it does not start with whitespace. |
| `Text.TrimEnd` | backend/ai_service.py:126 | The trailing half of `.strip()`: the result is a prefix of the input, everything it drops is whitespace, and it does not end with whitespace. |
| `Text.Join` | backend/system_analysis_engine.py:139 | `', '.join(labels)`: no labels give the empty string, and one label gives itself. With more labels, the result starts with the first label followed by the separator. |
| `Text.Strip` | backend/ai_service.py:126 | The result has no whitespace at either end and is no longer than the input. |
| `Text.StripExact` | backend/ai_service.py:130 | Stripping a whitespace run, then a non-empty text without outer whitespace, then another whitespace run, yields exactly that text. |
| `Text.StripIdempotent` | backend/ai_service.py:134 | Stripping twice is the same as stripping once. |
| `Text.StripEmptyIsBlank` | backend/ai_service.py:136-137 | Only an all-whitespace string strips to the empty string. |
| `ComprehensiveParser.SpaceRunEnd` | backend/ai_service.py:124 | The greedy `\s*` after the colon consumes a run of whitespace and stops at the first non-space character or at the end of the text. |
| `ComprehensiveParser.GroupStart` | backend/ai_service.py:124 | The group `(.+?)` starts right after the consumed whitespace. If only whitespace follows the colon, `\s*` gives its last character back, so the group starts at the last character. |
| `ComprehensiveParser.GroupAt` | backend/ai_service.py:124-126 | A match's value, the group after `.strip()`, has no whitespace at either end and is shorter than the reply. |
| `ComprehensiveParser.FindFrom` | backend/ai_service.py:124 | Finds the leftmost position where the marker, then a colon (either width), then at least one more character occur. |
| `ComprehensiveParser.LazyEnd` | backend/ai_service.py:128 | The lazy group ends at the first stop word, the end of the text, or the final line break, whichever comes first. |
| `ComprehensiveParser.Extract` | backend/ai_service.py:128-134 | No match exactly when no marker with a colon and a following character occurs. A match is stripped and is shorter than the text. |
| `ComprehensiveParser.Parse` | backend/ai_service.py:120-139 | Every field has no outer whitespace. Each label is absent exactly when its marker never occurs. The analysis is the stripped group when that group is non-empty. It falls back to the whole stripped reply when the analysis marker does not match, and also when the group strips to nothing. The analysis is empty exactly when the reply is blank. |
| `ComprehensiveParser.ParseReply` | backend/ai_prompt_generator.py:267-270 | A reply in the requested three-line format parses back to its three parts, when the parts are non-empty, already stripped and free of the later markers. |
| `QuarterIds.ValidShape` | backend/schemas.py:35 | An id is accepted exactly when it has seven characters: four ASCII digits, "-", "Q", then 1 to 4. |
| `QuarterIds.RejectedExamples` | backend/schemas.py:35 | "2024-Q1" and "1999-Q4" are accepted. Q0, Q5, a lower-case q, a two- or five-digit year and a trailing line break are rejected. |
| `QuarterIds.Format` | backend/schemas.py:35 | Every year 0 to 9999 and quarter 1 to 4 has a valid id that reads back as that year and quarter. |
| `QuarterIds.FormatParse` | backend/schemas.py:35 | Every valid id is the formatting of its own year and quarter. |
| `QuarterIds.OrderIsChronological` | backend/crud.py:156-160 | For valid ids, string order coincides with (year, quarter) order. |
| `QuarterIds.LexLessTransitive` | backend/crud.py:158-159 | String order is transitive, so "greatest below" is well defined. |
| `QuarterIds.LexLessTotal` | backend/crud.py:158-159 | Distinct strings are always ordered one way or the other. |
| `QuarterIds.PreviousQuarter` | backend/crud.py:156-160 | Returns the greatest stored id strictly below the current one, or nothing when there is none. For valid ids this is the latest earlier quarter. |
| `QuarterIds.PreviousIsChronological` | backend/crud.py:156-160 | The id picked by string order is chronologically earlier than the current quarter, and no stored quarter lies between them. |
| `Schemas.Validate` | backend/schemas.py:34-53 | A payload is accepted exactly when the quarter id matches the pattern and, on creation, a company id is given. A bad id is reported as such. Supplied metrics are kept, and omitted ones are absent. |
| `Schemas.MetricsDefaultAbsent` | backend/schemas.py:34-53 | A payload that supplies no metric validates to a record with all ten metrics absent. This holds for a creation payload with a company id, and for an update payload with or without one. |
| `Schemas.UpdateStillNeedsQuarterId` | backend/schemas.py:52-53 | An update payload is accepted exactly when its quarter id is valid, even though every metric may be omitted. |

## Left out

- Float rounding is not modelled. `round(score, 2)` in each scorer's return value and the `:.1f` number formatting in the summaries are left out. Scores are exact reals before rounding. The summary renderer takes the number formatter as a parameter, so the summary's numbers are not pinned to any digit count.
- Summary decimals: the stored scores are rounded to two decimals (backend/system_analysis_engine.py:142-144), while the summary prints them with one decimal (`:.1f`, backend/system_analysis_engine.py:134-136). The formatter is abstract in the model, and no round trip from the summary back to the scores is modelled.
- Binary floating point is modelled as exact reals. Scores, breakpoints and weights are rationals.
- The company type reaches the dispatcher as a string. The enum is a string enum, so a plain string equal to a value routes the same way, and any other value takes the `ValueError` branch.
- `QuarterIds.Valid`: `\d` is modelled as the ASCII digits only. Pydantic's regex engine also accepts other Unicode decimal digits, which this model rejects.
- `QuarterIds.LexLess`: the database's string collation is taken to be code-point order.
- The persistence layer's `float(x) if x else None` turns a stored 0 into an absent metric before the engine runs. The engine is modelled on `Option<real>`, without that assumption.
- Database access, sessions and HTTP routing (`backend/crud.py`, `backend/main.py`) are not modelled, except the previous-quarter rule.
- The language-model HTTP calls, their retries, sleeps and random jitter are not modelled. The parser takes the reply text as its input.
- The prompt templates in `backend/ai_prompt_generator.py` are not modelled, apart from the reply format used for the round trip.
- The frontend and the configuration files are not modelled.
- Whether metrics are fractions or percentages is not modelled: the engine multiplies weighted metrics by 100 regardless, and the model keeps exactly that arithmetic.
- `ComprehensiveParser.ParseReply`: the round trip needs the analysis not to contain the label markers and the main label not to contain the risk marker. Without those conditions the regexes stop early, which the model reproduces.
