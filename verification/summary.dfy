/** The textual digest each scorer attaches to its result: three score
    lines, an archetype-specific extra line, and the label line. The lines
    are kept as structured values; `Render` produces the text, with the
    one-decimal number formatting supplied by the caller. */
module Summary {
  import opened Scoring
  import Text

  /** Where a truthy price/book ratio falls for an innovative pharma company. */
  datatype PbBand = QualityInDoubt | Reasonable | InnovationPremium | NeedsSustainedGrowth {
    function Text(): string {
      match this
      case QualityInDoubt => "质量存疑"
      case Reasonable => "合理"
      case InnovationPremium => "创新溢价"
      case NeedsSustainedGrowth => "需持续兑现增长"
    }

    /** Position of the band on the price/book axis, 1 (cheapest) to 4. */
    function Rank(): int {
      match this
      case QualityInDoubt => 1
      case Reasonable => 2
      case InnovationPremium => 3
      case NeedsSustainedGrowth => 4
    }
  }

  /** Bands: below 10, up to 20, up to 35, above 35. */
  function ClassifyPb(pb: real): (b: PbBand)
    ensures b == QualityInDoubt <==> pb < 10.0
    ensures b == Reasonable <==> 10.0 <= pb <= 20.0
    ensures b == InnovationPremium <==> 20.0 < pb <= 35.0
    ensures b == NeedsSustainedGrowth <==> pb > 35.0
  {
    if pb < 10.0 then QualityInDoubt
    else if pb <= 20.0 then Reasonable
    else if pb <= 35.0 then InnovationPremium
    else NeedsSustainedGrowth
  }

  /** A higher price/book ratio never falls in a lower band. */
  lemma PbBandMonotone(x: real, y: real)
    requires x <= y
    ensures ClassifyPb(x).Rank() <= ClassifyPb(y).Rank()
  {
  }

  datatype SummaryLine =
    | QualityLine(score: real)
    | ValuationLine(score: real)
    | TrendLine(score: real)
    | RoicWaccLine(tier: RoicWaccTier)
    | PbBandLine(band: PbBand)
    | LabelsLine(labels: seq<string>)

  /** The lines of a digest: quality, valuation, trend, the extra lines,
      and a label line only when there are labels. */
  function Digest(quality: real, valuation: real, trend: real,
                  extra: seq<SummaryLine>, labels: seq<string>): (r: seq<SummaryLine>)
    ensures |r| == 3 + |extra| + (if |labels| > 0 then 1 else 0)
    ensures r[0] == QualityLine(quality) && r[1] == ValuationLine(valuation) && r[2] == TrendLine(trend)
    ensures r[3..3 + |extra|] == extra
    ensures |labels| > 0 ==> r[|r| - 1] == LabelsLine(labels)
  {
    [QualityLine(quality), ValuationLine(valuation), TrendLine(trend)] + extra
      + (if |labels| > 0 then [LabelsLine(labels)] else [])
  }

  /** One line of text; `fmt` renders a score with one decimal. */
  function LineText(line: SummaryLine, fmt: real -> string): (r: string)
    ensures !line.LabelsLine? ==> |r| > 0 && r[|r| - 1] == '\n'
    ensures line.LabelsLine? ==> |r| >= 3 && r[..3] == "标签："
  {
    match line
    case QualityLine(s) => "质量得分：" + fmt(s) + "/100\n"
    case ValuationLine(s) => "估值状态：" + fmt(s) + "/100（越高越便宜）\n"
    case TrendLine(s) => "趋势得分：" + fmt(s) + "/100\n"
    case RoicWaccLine(t) => "ROIC-WACC：" + t.Text() + "\n"
    case PbBandLine(b) => "PB区间：" + b.Text() + "\n"
    case LabelsLine(ls) => "标签：" + Text.Join(ls, ", ")
  }

  /** The summary text: the lines' texts, concatenated. */
  function Render(lines: seq<SummaryLine>, fmt: real -> string): (r: string)
    ensures |lines| > 0 && !lines[|lines| - 1].LabelsLine? ==> |r| > 0 && r[|r| - 1] == '\n'
  {
    if |lines| == 0 then "" else LineText(lines[0], fmt) + Render(lines[1..], fmt)
  }

  /** Rendering distributes over concatenation of line lists. */
  lemma {:induction false} RenderAppend(a: seq<SummaryLine>, b: seq<SummaryLine>, fmt: real -> string)
    ensures Render(a + b, fmt) == Render(a, fmt) + Render(b, fmt)
    decreases |a|
  {
    if |a| > 0 {
      assert (a + b)[1..] == a[1..] + b;
      RenderAppend(a[1..], b, fmt);
    } else {
      assert a + b == b;
    }
  }

  /** The digest's text is the three score lines in order (quality,
      valuation, trend), the extra lines, then the label line when there
      are labels. */
  lemma {:induction false} RenderDigest(quality: real, valuation: real, trend: real,
                     extra: seq<SummaryLine>, labels: seq<string>, fmt: real -> string)
    ensures Render(Digest(quality, valuation, trend, extra, labels), fmt)
         == LineText(QualityLine(quality), fmt)
          + LineText(ValuationLine(valuation), fmt)
          + LineText(TrendLine(trend), fmt)
          + Render(extra, fmt)
          + (if |labels| > 0 then LineText(LabelsLine(labels), fmt) else "")
  {
    var head := [QualityLine(quality), ValuationLine(valuation), TrendLine(trend)];
    var tail: seq<SummaryLine> := if |labels| > 0 then [LabelsLine(labels)] else [];
    assert Digest(quality, valuation, trend, extra, labels) == head + extra + tail;
    RenderAppend(head + extra, tail, fmt);
    RenderAppend(head, extra, fmt);
    RenderThree(head[0], head[1], head[2], fmt);
    assert head == [head[0], head[1], head[2]];
    if |labels| > 0 {
      RenderOne(LabelsLine(labels), fmt);
    }
  }

  lemma RenderOne(a: SummaryLine, fmt: real -> string)
    ensures Render([a], fmt) == LineText(a, fmt)
  {
    assert [a][1..] == [];
    assert LineText(a, fmt) + "" == LineText(a, fmt);
  }

  lemma RenderThree(a: SummaryLine, b: SummaryLine, c: SummaryLine, fmt: real -> string)
    ensures Render([a, b, c], fmt) == LineText(a, fmt) + LineText(b, fmt) + LineText(c, fmt)
  {
    assert [a, b, c][1..] == [b, c];
    assert [b, c][1..] == [c];
    RenderOne(c, fmt);
    assert Render([b, c], fmt) == LineText(b, fmt) + LineText(c, fmt);
  }

  /** Every line but the label line ends with a line break. */
  predicate IsScoreOrExtraLine(line: SummaryLine) {
    !line.LabelsLine?
  }

  /** The rendered digest ends with a line break exactly when there is no
      label line (every label is non-empty and does not itself end with a
      line break). */
  lemma EndsWithBreakIffNoLabels(quality: real, valuation: real, trend: real,
                                 extra: seq<SummaryLine>, labels: seq<string>, fmt: real -> string)
    requires forall i :: 0 <= i < |extra| ==> IsScoreOrExtraLine(extra[i])
    requires forall i :: 0 <= i < |labels| ==> |labels[i]| > 0 && labels[i][|labels[i]| - 1] != '\n'
    ensures var s := Render(Digest(quality, valuation, trend, extra, labels), fmt);
      |s| > 0 && (s[|s| - 1] == '\n' <==> |labels| == 0)
  {
    if |labels| == 0 {
      NoLabelsEndsWithBreak(quality, valuation, trend, extra, fmt);
    } else {
      LabelsEndWithLastLabel(quality, valuation, trend, extra, labels, fmt);
    }
  }

  lemma NoLabelsEndsWithBreak(quality: real, valuation: real, trend: real,
                              extra: seq<SummaryLine>, fmt: real -> string)
    requires forall i :: 0 <= i < |extra| ==> IsScoreOrExtraLine(extra[i])
    ensures var s := Render(Digest(quality, valuation, trend, extra, []), fmt);
      |s| > 0 && s[|s| - 1] == '\n'
  {
    var lines := Digest(quality, valuation, trend, extra, []);
    if |extra| > 0 {
      assert lines[|lines| - 1] == extra[|extra| - 1];
    }
  }

  lemma LabelsEndWithLastLabel(quality: real, valuation: real, trend: real,
                               extra: seq<SummaryLine>, labels: seq<string>, fmt: real -> string)
    requires |labels| > 0
    requires forall i :: 0 <= i < |labels| ==> |labels[i]| > 0 && labels[i][|labels[i]| - 1] != '\n'
    ensures var s := Render(Digest(quality, valuation, trend, extra, labels), fmt);
      |s| > 0 && s[|s| - 1] != '\n'
  {
    var s := Render(Digest(quality, valuation, trend, extra, labels), fmt);
    var head := LineText(QualityLine(quality), fmt) + LineText(ValuationLine(valuation), fmt)
      + LineText(TrendLine(trend), fmt) + Render(extra, fmt);
    var t := LineText(LabelsLine(labels), fmt);
    RenderDigest(quality, valuation, trend, extra, labels, fmt);
    assert s == head + t;
    LabelLineEnd(labels, fmt);
    LastOfConcat(head, t);
  }

  /** The label line ends with the last label's last character. */
  lemma LabelLineEnd(labels: seq<string>, fmt: real -> string)
    requires |labels| > 0 && |labels[|labels| - 1]| > 0
    ensures var t := LineText(LabelsLine(labels), fmt); var last := labels[|labels| - 1];
      |t| > 0 && t[|t| - 1] == last[|last| - 1]
  {
    var last := labels[|labels| - 1];
    Text.JoinEndsWithLast(labels, ", ");
    var j := Text.Join(labels, ", ");
    assert j[|j| - 1] == j[|j| - |last|..][|last| - 1];
  }

  lemma LastOfConcat(a: string, b: string)
    requires |b| > 0
    ensures |a + b| > 0 && (a + b)[|a + b| - 1] == b[|b| - 1]
  {
  }
}
