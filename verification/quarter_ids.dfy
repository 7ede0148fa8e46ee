/** Quarter identifiers ("2024-Q3"): the `^\d{4}-Q[1-4]$` pattern the request
    schema enforces, the string order the persistence layer sorts them by,
    and the "previous quarter" lookup built on that order. */
module QuarterIds {
  import opened Wrappers

  /** One single-character element of an anchored pattern. */
  datatype Atom = AnyDigit | Lit(c: char) | Between(lo: char, hi: char)

  predicate IsDigit(c: char) {
    '0' <= c <= '9'
  }

  predicate AtomMatches(a: Atom, c: char) {
    match a
    case AnyDigit => IsDigit(c)
    case Lit(x) => c == x
    case Between(lo, hi) => lo <= c <= hi
  }

  /** `^p$` for a pattern of single-character atoms: one atom per character. */
  predicate FullMatch(p: seq<Atom>, s: string) {
    |s| == |p| && forall i :: 0 <= i < |s| ==> AtomMatches(p[i], s[i])
  }

  /** `^\d{4}-Q[1-4]$`, with `\d{4}` unrolled. */
  const QuarterPattern: seq<Atom> :=
    [AnyDigit, AnyDigit, AnyDigit, AnyDigit, Lit('-'), Lit('Q'), Between('1', '4')]

  /** The identifiers the schema accepts. */
  predicate Valid(s: string) {
    FullMatch(QuarterPattern, s)
  }

  /** What the pattern means, position by position. */
  lemma ValidShape(s: string)
    ensures Valid(s) <==>
      |s| == 7 && IsDigit(s[0]) && IsDigit(s[1]) && IsDigit(s[2]) && IsDigit(s[3])
      && s[4] == '-' && s[5] == 'Q' && '1' <= s[6] <= '4'
  {
    if |s| == 7 && IsDigit(s[0]) && IsDigit(s[1]) && IsDigit(s[2]) && IsDigit(s[3])
      && s[4] == '-' && s[5] == 'Q' && '1' <= s[6] <= '4' {
      forall i | 0 <= i < |s| ensures AtomMatches(QuarterPattern[i], s[i]) {
      }
    }
    if Valid(s) {
      assert AtomMatches(QuarterPattern[0], s[0]) && AtomMatches(QuarterPattern[1], s[1]);
      assert AtomMatches(QuarterPattern[2], s[2]) && AtomMatches(QuarterPattern[3], s[3]);
      assert AtomMatches(QuarterPattern[4], s[4]) && AtomMatches(QuarterPattern[5], s[5]);
      assert AtomMatches(QuarterPattern[6], s[6]);
    }
  }

  /** Quarter 0, quarter 5, a lower-case "q", a short or long year and a
      trailing line break are all rejected; a well-formed id is accepted. */
  lemma RejectedExamples()
    ensures Valid("2024-Q1") && Valid("1999-Q4")
    ensures !Valid("2024-Q0") && !Valid("2024-Q5") && !Valid("2024-q1")
    ensures !Valid("24-Q1") && !Valid("20245-Q1") && !Valid("2024-Q1\n")
  {
    ValidShape("2024-Q1");
    ValidShape("1999-Q4");
    ValidShape("2024-Q0");
    ValidShape("2024-Q5");
    ValidShape("2024-q1");
  }

  function DigitValue(c: char): (d: int)
    requires IsDigit(c)
    ensures 0 <= d <= 9
  {
    c as int - '0' as int
  }

  function DigitChar(d: int): (c: char)
    requires 0 <= d <= 9
    ensures IsDigit(c) && DigitValue(c) == d
  {
    ('0' as int + d) as char
  }

  /** The four-digit year of a valid id. */
  function Year(s: string): (y: int)
    requires Valid(s)
    ensures 0 <= y <= 9999
  {
    ValidShape(s);
    1000 * DigitValue(s[0]) + 100 * DigitValue(s[1]) + 10 * DigitValue(s[2]) + DigitValue(s[3])
  }

  /** The quarter number of a valid id. */
  function QuarterOf(s: string): (q: int)
    requires Valid(s)
    ensures 1 <= q <= 4
  {
    ValidShape(s);
    DigitValue(s[6])
  }

  /** Position of a quarter on the time line: (year, quarter) flattened. */
  function Chrono(s: string): int
    requires Valid(s)
  {
    4 * Year(s) + QuarterOf(s) - 1
  }

  /** The id of quarter `q` of `year`. */
  function Format(year: int, q: int): (s: string)
    requires 0 <= year <= 9999 && 1 <= q <= 4
    ensures Valid(s) && Year(s) == year && QuarterOf(s) == q
  {
    var (d0, r0) := (year / 1000, year % 1000);
    var (d1, r1) := (r0 / 100, r0 % 100);
    var (d2, d3) := (r1 / 10, r1 % 10);
    var s := [DigitChar(d0), DigitChar(d1), DigitChar(d2), DigitChar(d3), '-', 'Q', DigitChar(q)];
    ValidShape(s);
    s
  }

  /** Splitting off the leading digit of a number below 10000. */
  lemma SplitThousands(y: int, a: int, rest: int)
    requires 0 <= rest < 1000 && y == 1000 * a + rest
    ensures y / 1000 == a && y % 1000 == rest
  {
  }

  lemma SplitHundreds(y: int, a: int, rest: int)
    requires 0 <= rest < 100 && y == 100 * a + rest
    ensures y / 100 == a && y % 100 == rest
  {
  }

  lemma SplitTens(y: int, a: int, rest: int)
    requires 0 <= rest < 10 && y == 10 * a + rest
    ensures y / 10 == a && y % 10 == rest
  {
  }

  /** Every valid id is the formatting of its own year and quarter. */
  lemma FormatParse(s: string)
    requires Valid(s)
    ensures Format(Year(s), QuarterOf(s)) == s
  {
    ValidShape(s);
    var (a, b, c, d) := (DigitValue(s[0]), DigitValue(s[1]), DigitValue(s[2]), DigitValue(s[3]));
    var y := Year(s);
    SplitThousands(y, a, 100 * b + 10 * c + d);
    SplitHundreds(100 * b + 10 * c + d, b, 10 * c + d);
    SplitTens(10 * c + d, c, d);
  }

  /** Python's `str` comparison `a < b`: code-point lexicographic order. */
  predicate LexLess(a: string, b: string)
    decreases |a|
  {
    if |a| == 0 then |b| > 0
    else if |b| == 0 then false
    else if a[0] != b[0] then a[0] < b[0]
    else LexLess(a[1..], b[1..])
  }

  lemma {:induction false} LexLessIrreflexive(a: string)
    ensures !LexLess(a, a)
    decreases |a|
  {
    if |a| > 0 {
      LexLessIrreflexive(a[1..]);
    }
  }

  lemma {:induction false} LexLessTransitive(a: string, b: string, c: string)
    requires LexLess(a, b) && LexLess(b, c)
    ensures LexLess(a, c)
    decreases |a|
  {
    if |a| > 0 && |b| > 0 && |c| > 0 && a[0] == b[0] && b[0] == c[0] {
      LexLessTransitive(a[1..], b[1..], c[1..]);
    }
  }

  lemma {:induction false} LexLessTotal(a: string, b: string)
    requires a != b
    ensures LexLess(a, b) || LexLess(b, a)
    decreases |a|
  {
    if |a| > 0 && |b| > 0 && a[0] == b[0] {
      assert a == [a[0]] + a[1..] && b == [b[0]] + b[1..];
      LexLessTotal(a[1..], b[1..]);
    }
  }

  /** Between equal-length strings that agree before index `k` and differ
      at it, the order is decided by that index. */
  lemma {:induction false} LexLessAt(a: string, b: string, k: nat)
    requires |a| == |b| && k < |a| && a[..k] == b[..k] && a[k] != b[k]
    ensures LexLess(a, b) <==> a[k] < b[k]
    decreases k
  {
    if k > 0 {
      assert a[0] == a[..k][0] == b[..k][0] == b[0];
      assert a[1..][..k - 1] == a[..k][1..] == b[..k][1..] == b[1..][..k - 1];
      LexLessAt(a[1..], b[1..], k - 1);
    }
  }

  /** For well-formed ids, string order is chronological order. */
  lemma OrderIsChronological(a: string, b: string)
    requires Valid(a) && Valid(b)
    ensures LexLess(a, b) <==> Chrono(a) < Chrono(b)
  {
    ValidShape(a);
    ValidShape(b);
    if a[0] != b[0] {
      LexLessAt(a, b, 0);
    } else if a[1] != b[1] {
      LexLessAt(a, b, 1);
    } else if a[2] != b[2] {
      LexLessAt(a, b, 2);
    } else if a[3] != b[3] {
      LexLessAt(a, b, 3);
    } else if a[6] != b[6] {
      LexLessAt(a, b, 6);
    } else {
      assert a == b;
      LexLessIrreflexive(a);
    }
  }

  /** `p` is the greatest stored id strictly below `current` under `less`. */
  ghost predicate GreatestBelow(stored: seq<string>, current: string, p: string, less: (string, string) -> bool) {
    p in stored && less(p, current)
    && forall s :: s in stored && less(s, current) ==> !less(p, s)
  }

  /** The previous-quarter query: among a company's stored ids, the greatest
      one strictly below `current` in string order, or none. */
  method PreviousQuarter(stored: seq<string>, current: string) returns (prev: Option<string>)
    ensures prev.None? <==> forall s :: s in stored ==> !LexLess(s, current)
    ensures prev.Some? ==> prev.value in stored && LexLess(prev.value, current)
    ensures prev.Some? ==> forall s :: s in stored && LexLess(s, current) ==> !LexLess(prev.value, s)
    ensures prev.Some? && Valid(current) && (forall s :: s in stored ==> Valid(s)) ==>
      Chrono(prev.value) < Chrono(current)
      && forall s :: s in stored && Chrono(s) < Chrono(current) ==> Chrono(s) <= Chrono(prev.value)
  {
    prev := None;
    for i := 0 to |stored|
      invariant prev.None? <==> forall j :: 0 <= j < i ==> !LexLess(stored[j], current)
      invariant prev.Some? ==> prev.value in stored[..i] && LexLess(prev.value, current)
      invariant prev.Some? ==> forall j :: 0 <= j < i && LexLess(stored[j], current) ==> !LexLess(prev.value, stored[j])
    {
      var s := stored[i];
      if LexLess(s, current) && (prev.None? || LexLess(prev.value, s)) {
        LexLessIrreflexive(s);
        forall j | 0 <= j < i && LexLess(stored[j], current)
          ensures !LexLess(s, stored[j])
        {
          if LexLess(s, stored[j]) {
            LexLessTransitive(prev.value, s, stored[j]);
          }
        }
        prev := Some(s);
      }
    }
    assert stored[..|stored|] == stored;
    if prev.Some? && Valid(current) && (forall s :: s in stored ==> Valid(s)) {
      PreviousIsChronological(stored, current, prev.value);
    }
  }

  /** When every id involved is well formed, the string-order answer is the
      chronological predecessor: earlier than `current`, and no stored
      quarter lies strictly between the two. */
  lemma PreviousIsChronological(stored: seq<string>, current: string, p: string)
    requires Valid(current) && forall s :: s in stored ==> Valid(s)
    requires p in stored && LexLess(p, current)
    requires forall s :: s in stored && LexLess(s, current) ==> !LexLess(p, s)
    ensures Valid(p) && Chrono(p) < Chrono(current)
    ensures forall s :: s in stored && Chrono(s) < Chrono(current) ==> Chrono(s) <= Chrono(p)
  {
    OrderIsChronological(p, current);
    forall s | s in stored && Chrono(s) < Chrono(current)
      ensures Chrono(s) <= Chrono(p)
    {
      OrderIsChronological(s, current);
      OrderIsChronological(p, s);
    }
  }
}
