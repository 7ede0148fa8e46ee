/** Reading the model's free-text reply: the analysis paragraph after
    `分析：`, the main label after `主标签：` and the risk label after
    `风险标签：`, each colon full-width or ASCII. Each field is the lazy
    group of a `re.search` with `re.DOTALL`, stripped. */
module ComprehensiveParser {
  import opened Wrappers
  import opened Text

  const AnalysisWord := "分析"
  const MainLabelWord := "主标签"
  const RiskLabelWord := "风险标签"

  /** `[：:]` */
  predicate IsColon(c: char) {
    c == '：' || c == ':'
  }

  /** `word[：:]` starts at `i` and at least one character follows it, as
      the group `(.+?)` needs. */
  predicate CanMatchAt(text: string, i: int, word: string) {
    HasAt(text, i, word) && i + |word| + 1 < |text| && IsColon(text[i + |word|])
  }

  /** The leftmost start at or after `i` where the pattern can match. */
  function FindFrom(text: string, word: string, i: nat): (r: Option<nat>)
    ensures r.Some? ==> i <= r.value && CanMatchAt(text, r.value, word)
    ensures r.Some? ==> forall j :: i <= j < r.value ==> !CanMatchAt(text, j, word)
    ensures r.None? ==> forall j :: i <= j ==> !CanMatchAt(text, j, word)
    decreases |text| - i
  {
    if i >= |text| then None
    else if CanMatchAt(text, i, word) then Some(i)
    else FindFrom(text, word, i + 1)
  }

  /** Where the greedy `\s*` that starts at `j` stops. */
  function SpaceRunEnd(text: string, j: nat): (r: nat)
    requires j <= |text|
    ensures j <= r <= |text| && AllSpace(text[j..r])
    ensures r < |text| ==> !IsSpace(text[r])
    decreases |text| - j
  {
    if j == |text| || !IsSpace(text[j]) then j
    else
      var r := SpaceRunEnd(text, j + 1);
      assert text[j..r] == [text[j]] + text[j + 1..r];
      r
  }

  /** The lookahead `(?=stop|$)`: the stop word starts at `e`, or `e` is the
      end of the text, or the text's final line break. */
  predicate StopAt(text: string, e: int, stop: Option<string>) {
    (stop.Some? && HasAt(text, e, stop.value))
    || e == |text|
    || (e == |text| - 1 && 0 <= e && text[e] == '\n')
  }

  /** Where the lazy `(.+?)` that starts at `k` ends: the first position
      past `k` at which the lookahead holds. */
  function LazyEnd(text: string, k: nat, stop: Option<string>, e: nat): (r: nat)
    requires k < e <= |text|
    requires forall x :: k < x < e ==> !StopAt(text, x, stop)
    ensures e <= r <= |text| && StopAt(text, r, stop)
    ensures forall x :: k < x < r ==> !StopAt(text, x, stop)
    decreases |text| - e
  {
    if StopAt(text, e, stop) then e else LazyEnd(text, k, stop, e + 1)
  }

  /** Where the group `(.+?)` of a match whose marker starts at `i` begins:
      after the greedy `\s*`, except that when only whitespace follows the
      colon `\s*` gives its last character back so the group is not empty. */
  function GroupStart(text: string, word: string, i: nat): (k: nat)
    requires CanMatchAt(text, i, word)
    ensures i + |word| + 1 <= k < |text|
    ensures AllSpace(text[i + |word| + 1..k])
    ensures k < |text| - 1 ==> !IsSpace(text[k])
  {
    var j := i + |word| + 1;
    var k0 := SpaceRunEnd(text, j);
    if k0 == |text| then
      assert text[j..|text| - 1] == text[j..k0][..|text| - 1 - j];
      |text| - 1
    else k0
  }

  /** The stripped group of a match whose marker starts at `i`. */
  function GroupAt(text: string, word: string, stop: Option<string>, i: nat): (g: string)
    requires CanMatchAt(text, i, word)
    ensures NoOuterSpace(g) && |g| < |text|
  {
    GroupFrom(text, GroupStart(text, word, i), stop)
  }

  /** The stripped lazy group that starts at `k`. */
  function GroupFrom(text: string, k: nat, stop: Option<string>): (g: string)
    requires k < |text|
    ensures NoOuterSpace(g) && |g| <= |text| - k
  {
    Strip(text[k..LazyEnd(text, k, stop, k + 1)])
  }

  /** `re.search(word + r'[：:]\s*(.+?)(?=stop|$)', text, re.DOTALL)`,
      its group stripped; with no stop word, `(.+?)$`. */
  function Extract(text: string, word: string, stop: Option<string>): (r: Option<string>)
    ensures r.None? <==> forall i :: !CanMatchAt(text, i, word)
    ensures r.Some? ==> NoOuterSpace(r.value) && |r.value| < |text|
  {
    match FindFrom(text, word, 0)
    case None => None
    case Some(i) => Some(GroupAt(text, word, stop, i))
  }

  datatype ParseResult = ParseResult(analysisText: string, mainLabel: Option<string>, riskLabel: Option<string>)

  /** The three fields of a reply. The analysis falls back to the whole
      reply, stripped, when its marker is missing or its text is blank. */
  function Parse(text: string): (r: ParseResult)
    ensures NoOuterSpace(r.analysisText)
    ensures r.mainLabel.None? <==> forall i :: !CanMatchAt(text, i, MainLabelWord)
    ensures r.riskLabel.None? <==> forall i :: !CanMatchAt(text, i, RiskLabelWord)
    ensures r.mainLabel.Some? ==> NoOuterSpace(r.mainLabel.value)
    ensures r.riskLabel.Some? ==> NoOuterSpace(r.riskLabel.value)
    ensures (forall i :: !CanMatchAt(text, i, AnalysisWord)) ==> r.analysisText == Strip(text)
    ensures var a := Extract(text, AnalysisWord, Some(MainLabelWord));
            a == Some("") ==> r.analysisText == Strip(text)
    ensures var a := Extract(text, AnalysisWord, Some(MainLabelWord));
            a.Some? && a.value != "" ==> r.analysisText == a.value
    ensures r.analysisText == "" <==> AllSpace(text)
  {
    var analysis := Extract(text, AnalysisWord, Some(MainLabelWord));
    var analysisText := if analysis.Some? && analysis.value != "" then analysis.value else Strip(text);
    assert analysisText == "" <==> AllSpace(text) by {
      if AllSpace(text) {
        BlankHasNoMarker(text);
        StripAllSpace(text);
      } else if analysisText == "" {
        StripEmptyIsBlank(text);
      }
    }
    ParseResult(analysisText,
                Extract(text, MainLabelWord, Some(RiskLabelWord)),
                Extract(text, RiskLabelWord, None))
  }

  /** A blank reply contains no marker, since a marker starts with a letter. */
  lemma BlankHasNoMarker(text: string)
    requires AllSpace(text)
    ensures forall i :: !CanMatchAt(text, i, AnalysisWord)
  {
    forall i ensures !CanMatchAt(text, i, AnalysisWord) {
      if 0 <= i < |text| {
        assert IsSpace(text[i]);
        assert text[i] != '分';
        assert i + 2 <= |text| ==> text[i..i + 2][0] != '分';
      }
    }
  }

  // ---------------------------------------------------------------- round trip

  /** The search lands on `i` when the pattern matches there and the word
      occurs nowhere earlier. */
  lemma FindFromIs(text: string, word: string, i: nat)
    requires CanMatchAt(text, i, word)
    requires forall j :: 0 <= j < i ==> !HasAt(text, j, word)
    ensures FindFrom(text, word, 0) == Some(i)
  {
    var r := FindFrom(text, word, 0);
    assert r.Some?;
  }

  /** `\s*` matches nothing in front of a non-space character. */
  lemma SpaceRunAtNonSpace(text: string, j: nat)
    requires j < |text| && !IsSpace(text[j])
    ensures SpaceRunEnd(text, j) == j
  {
  }

  /** The lazy group ends at the first position past `k` where the
      lookahead holds. */
  lemma LazyEndIs(text: string, k: nat, stop: Option<string>, e: nat)
    requires k < e <= |text| && StopAt(text, e, stop)
    requires forall x :: k < x < e ==> !StopAt(text, x, stop)
    ensures LazyEnd(text, k, stop, k + 1) == e
  {
  }

  /** One field comes out as `value` when the marker at `i` is the first
      occurrence of its word, `value` follows the colon directly, and only
      whitespace separates it from the first place the lookahead holds. */
  lemma ExtractField(text: string, word: string, stop: Option<string>, i: nat, value: string, e: nat)
    requires CanMatchAt(text, i, word)
    requires forall j :: 0 <= j < i ==> !HasAt(text, j, word)
    requires |value| > 0 && NoOuterSpace(value)
    requires i + |word| + 1 + |value| <= e <= |text|
    requires text[i + |word| + 1..i + |word| + 1 + |value|] == value
    requires AllSpace(text[i + |word| + 1 + |value|..e])
    requires StopAt(text, e, stop)
    requires forall x :: i + |word| + 1 < x < e ==> !StopAt(text, x, stop)
    ensures Extract(text, word, stop) == Some(value)
  {
    var k := i + |word| + 1;
    FindFromIs(text, word, i);
    GroupStartAt(text, word, i, value);
    LazyEndIs(text, k, stop, e);
    StripSpan(text, k, value, e);
    GroupAtIs(text, word, stop, i, k, e, value);
  }

  lemma GroupStartAt(text: string, word: string, i: nat, value: string)
    requires CanMatchAt(text, i, word) && |value| > 0 && NoOuterSpace(value)
    requires i + |word| + 1 + |value| <= |text|
    requires text[i + |word| + 1..i + |word| + 1 + |value|] == value
    ensures GroupStart(text, word, i) == i + |word| + 1
  {
    var k := i + |word| + 1;
    assert text[k] == text[k..k + |value|][0] == value[0];
    SpaceRunAtNonSpace(text, k);
  }

  lemma GroupAtIs(text: string, word: string, stop: Option<string>, i: nat, k: nat, e: nat, value: string)
    requires CanMatchAt(text, i, word) && GroupStart(text, word, i) == k
    requires LazyEnd(text, k, stop, k + 1) == e && Strip(text[k..e]) == value
    ensures GroupAt(text, word, stop, i) == value
  {
    assert GroupFrom(text, k, stop) == value;
  }

  lemma StripSpan(text: string, k: nat, value: string, e: nat)
    requires |value| > 0 && NoOuterSpace(value)
    requires k + |value| <= e <= |text|
    requires text[k..k + |value|] == value
    requires AllSpace(text[k + |value|..e])
    ensures Strip(text[k..e]) == value
  {
    var tail := text[k + |value|..e];
    assert text[k..e] == "" + value + tail;
    StripExact("", value, tail);
  }

  /** A word that `x` lacks starts nowhere from the start of `x` up to the
      line break after it. */
  lemma NoWordInSegment(text: string, p: string, x: string, rest: string, w: string)
    requires text == p + x + "\n" + rest
    requires !Contains(x, w) && |w| > 0 && '\n' !in w
    ensures forall y :: |p| <= y <= |p| + |x| ==> !HasAt(text, y, w)
  {
    assert text == p + (x + "\n" + rest);
    forall y | |p| <= y <= |p| + |x| ensures !HasAt(text, y, w) {
      HasAtShift(p, x + "\n" + rest, y - |p|, w);
      NotAcrossBreak(x, rest, w, y - |p|);
    }
  }

  /** The reply in the format the prompt asks for. */
  function Reply(analysis: string, mainLabel: string, riskLabel: string): string {
    "分析：" + analysis + "\n主标签：" + mainLabel + "\n风险标签：" + riskLabel
  }

  /** A well-formed reply parses back to its three parts, provided each part
      is non-empty and already stripped, the analysis mentions neither later
      marker and the main label does not mention the risk marker. */
  lemma ParseReply(analysis: string, mainLabel: string, riskLabel: string)
    requires |analysis| > 0 && |mainLabel| > 0 && |riskLabel| > 0
    requires NoOuterSpace(analysis) && NoOuterSpace(mainLabel) && NoOuterSpace(riskLabel)
    requires !Contains(analysis, MainLabelWord) && !Contains(analysis, RiskLabelWord)
    requires !Contains(mainLabel, RiskLabelWord)
    ensures Parse(Reply(analysis, mainLabel, riskLabel))
            == ParseResult(analysis, Some(mainLabel), Some(riskLabel))
  {
    var text := Reply(analysis, mainLabel, riskLabel);
    var (a, b, c) := (analysis, mainLabel, riskLabel);
    var p1 := "分析：";
    var p2 := p1 + a + "\n主标签：";
    var p3 := p2 + b + "\n风险标签：";
    assert text == p3 + c;
    ParseAnalysis(text, a, b, c);
    ParseMainLabel(text, a, b, c);
    ParseRiskLabel(text, a, b, c);
  }

  lemma ParseAnalysis(text: string, a: string, b: string, c: string)
    requires text == Reply(a, b, c)
    requires |a| > 0 && |b| > 0 && |c| > 0 && NoOuterSpace(a)
    requires !Contains(a, MainLabelWord)
    ensures Extract(text, AnalysisWord, Some(MainLabelWord)) == Some(a)
  {
    var rest := "主标签：" + b + "\n风险标签：" + c;
    assert text == "分析：" + a + "\n" + rest;
    var e := 3 + |a| + 1;
    assert text[0..2] == AnalysisWord && text[2] == '：';
    assert text[3..3 + |a|] == a;
    assert text[3 + |a|..e] == "\n";
    assert text[e..e + 3] == MainLabelWord;
    NoWordInSegment(text, "分析：", a, rest, MainLabelWord);
    ExtractField(text, AnalysisWord, Some(MainLabelWord), 0, a, e);
  }

  lemma ParseMainLabel(text: string, a: string, b: string, c: string)
    requires text == Reply(a, b, c)
    requires |a| > 0 && |b| > 0 && |c| > 0 && NoOuterSpace(b)
    requires !Contains(a, MainLabelWord) && !Contains(b, RiskLabelWord)
    ensures Extract(text, MainLabelWord, Some(RiskLabelWord)) == Some(b)
  {
    var m := 3 + |a| + 1;
    var p := "分析：" + a + "\n主标签：";
    var rest := "风险标签：" + c;
    var e := |p| + |b| + 1;
    ReplySplits(a, b, c);
    assert CanMatchAt(text, m, MainLabelWord) by {
      MarkerAt("分析：" + a + "\n", "主标签：", b + "\n风险标签：" + c, MainLabelWord);
    }
    assert forall j :: 0 <= j < m ==> !HasAt(text, j, MainLabelWord) by {
      NoWordInLiteral(text, "", "分析：", a + "\n主标签：" + b + "\n风险标签：" + c, MainLabelWord);
      NoWordInSegment(text, "分析：", a, "主标签：" + b + "\n风险标签：" + c, MainLabelWord);
    }
    assert text[|p|..|p| + |b|] == b && AllSpace(text[|p| + |b|..e]) by {
      SegmentAt(p, b, "\n" + rest);
      SegmentAt(p + b, "\n", rest);
    }
    assert StopAt(text, e, Some(RiskLabelWord)) by {
      MarkerAt(p + b + "\n", "风险标签：", c, RiskLabelWord);
    }
    assert forall x :: |p| < x < e ==> !StopAt(text, x, Some(RiskLabelWord)) by {
      NoWordInSegment(text, p, b, rest, RiskLabelWord);
    }
    ExtractField(text, MainLabelWord, Some(RiskLabelWord), m, b, e);
  }

  lemma ParseRiskLabel(text: string, a: string, b: string, c: string)
    requires text == Reply(a, b, c)
    requires |a| > 0 && |b| > 0 && |c| > 0 && NoOuterSpace(c)
    requires !Contains(a, RiskLabelWord) && !Contains(b, RiskLabelWord)
    ensures Extract(text, RiskLabelWord, None) == Some(c)
  {
    var p := "分析：" + a + "\n主标签：";
    var q := p + b + "\n风险标签：";
    var r := |p| + |b| + 1;
    ReplySplits(a, b, c);
    assert CanMatchAt(text, r, RiskLabelWord) by {
      MarkerAt(p + b + "\n", "风险标签：", c, RiskLabelWord);
    }
    RiskMarkerIsFirst(text, a, b, c);
    assert text[|q|..|q| + |c|] == c && AllSpace(text[|q| + |c|..|text|]) by {
      SegmentAt(q, c, "");
    }
    assert text == q + c;
    LastOfSuffix(q, c);
    NoStopBeforeEnd(text, |q|);
    ExtractField(text, RiskLabelWord, None, r, c, |text|);
  }

  lemma RiskMarkerIsFirst(text: string, a: string, b: string, c: string)
    requires text == Reply(a, b, c)
    requires !Contains(a, RiskLabelWord) && !Contains(b, RiskLabelWord)
    ensures forall j :: 0 <= j < |"分析：" + a + "\n主标签："| + |b| + 1 ==> !HasAt(text, j, RiskLabelWord)
  {
    var p := "分析：" + a + "\n主标签：";
    ReplySplits(a, b, c);
    NoWordInLiteral(text, "", "分析：", a + "\n主标签：" + b + "\n风险标签：" + c, RiskLabelWord);
    NoWordInSegment(text, "分析：", a, "主标签：" + b + "\n风险标签：" + c, RiskLabelWord);
    NoWordInLiteral(text, "分析：" + a + "\n", "主标签：", b + "\n风险标签：" + c, RiskLabelWord);
    NoWordInSegment(text, p, b, "风险标签：" + c, RiskLabelWord);
  }

  /** The reply regrouped around each of its parts. */
  lemma ReplySplits(a: string, b: string, c: string)
    ensures Reply(a, b, c) == "分析：" + a + "\n" + ("主标签：" + b + "\n风险标签：" + c)
    ensures Reply(a, b, c) == "" + "分析：" + (a + "\n主标签：" + b + "\n风险标签：" + c)
    ensures Reply(a, b, c) == ("分析：" + a + "\n") + "主标签：" + (b + "\n风险标签：" + c)
    ensures Reply(a, b, c) == ("分析：" + a + "\n主标签：") + b + "\n" + ("风险标签：" + c)
    ensures Reply(a, b, c) == ("分析：" + a + "\n主标签：") + b + ("\n" + ("风险标签：" + c))
    ensures Reply(a, b, c) == ("分析：" + a + "\n主标签：" + b) + "\n" + ("风险标签：" + c)
    ensures Reply(a, b, c) == ("分析：" + a + "\n主标签：" + b + "\n") + "风险标签：" + c
    ensures Reply(a, b, c) == ("分析：" + a + "\n主标签：" + b + "\n风险标签：") + c + ""
  {
  }

  /** A literal chunk whose characters all differ from the word's first
      character holds no occurrence of the word. */
  lemma NoWordInLiteral(text: string, p: string, lit: string, rest: string, w: string)
    requires text == p + lit + rest && |w| > 0
    requires forall t :: 0 <= t < |lit| ==> lit[t] != w[0]
    ensures forall y :: |p| <= y < |p| + |lit| ==> !HasAt(text, y, w)
  {
    forall y | |p| <= y < |p| + |lit| ensures !HasAt(text, y, w) {
      assert text[y] == lit[y - |p|];
      assert y + |w| <= |text| ==> text[y..y + |w|][0] == text[y];
    }
  }

  /** Without a stop word, the lookahead holds nowhere before the end of a
      text that does not end in whitespace. */
  lemma NoStopBeforeEnd(text: string, k: nat)
    requires |text| > 0 && !IsSpace(text[|text| - 1])
    ensures forall x :: k < x < |text| ==> !StopAt(text, x, None)
  {
  }

  lemma LastOfSuffix(p: string, c: string)
    requires |c| > 0
    ensures (p + c)[|p + c| - 1] == c[|c| - 1]
  {
  }

  /** Where a middle part sits in a concatenation. */
  lemma SegmentAt(p: string, x: string, rest: string)
    ensures (p + x + rest)[|p|..|p| + |x|] == x
  {
  }

  /** A marker and its colon at a known place of the text. */
  lemma MarkerAt(p: string, marker: string, rest: string, w: string)
    requires |marker| == |w| + 1 && marker[..|w|] == w && IsColon(marker[|w|]) && |rest| > 0
    ensures CanMatchAt(p + marker + rest, |p|, w)
    ensures StopAt(p + marker + rest, |p|, Some(w))
  {
    var text := p + marker + rest;
    assert text[|p|..|p| + |w|] == marker[..|w|];
    assert text[|p| + |w|] == marker[|w|];
  }
}
