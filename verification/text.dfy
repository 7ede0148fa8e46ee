/** Character and string helpers shared by the reply parser and the summary
    renderer: Python's whitespace class, `str.strip`, substring search and
    `str.join`. */
module Text {

  /** Python's `str.isspace` (the same class the `re` module's `\s` matches
      on `str` patterns). */
  predicate IsSpace(c: char) {
    var n := c as int;
    (0x09 <= n <= 0x0D) || (0x1C <= n <= 0x20) || n == 0x85 || n == 0xA0
    || n == 0x1680 || (0x2000 <= n <= 0x200A) || n == 0x2028 || n == 0x2029
    || n == 0x202F || n == 0x205F || n == 0x3000
  }

  predicate AllSpace(s: string) {
    forall i :: 0 <= i < |s| ==> IsSpace(s[i])
  }

  /** Neither end of `s` is whitespace. */
  predicate NoOuterSpace(s: string) {
    |s| == 0 || (!IsSpace(s[0]) && !IsSpace(s[|s| - 1]))
  }

  /** `s.lstrip()`: the suffix left after dropping leading whitespace. */
  function TrimStart(s: string): (r: string)
    ensures |r| <= |s| && r == s[|s| - |r|..]
    ensures AllSpace(s[..|s| - |r|])
    ensures |r| > 0 ==> !IsSpace(r[0])
  {
    if |s| > 0 && IsSpace(s[0]) then
      var r := TrimStart(s[1..]);
      assert s[1..][|s| - 1 - |r|..] == s[|s| - |r|..];
      assert forall i :: 1 <= i < |s| - |r| ==> s[i] == s[1..][..|s| - 1 - |r|][i - 1];
      r
    else s
  }

  /** `s.rstrip()`: the prefix left after dropping trailing whitespace. */
  function TrimEnd(s: string): (r: string)
    ensures |r| <= |s| && r == s[..|r|]
    ensures AllSpace(s[|r|..])
    ensures |r| > 0 ==> !IsSpace(r[|r| - 1])
  {
    if |s| > 0 && IsSpace(s[|s| - 1]) then
      var r := TrimEnd(s[..|s| - 1]);
      assert s[|r|..] == s[..|s| - 1][|r|..] + [s[|s| - 1]];
      r
    else s
  }

  /** `s.strip()`: `s` with whitespace removed from both ends. */
  function Strip(s: string): (r: string)
    ensures NoOuterSpace(r)
    ensures |r| <= |s|
  {
    TrimEnd(TrimStart(s))
  }

  /** Strip removes exactly the whitespace margins: whenever `s` is a
      whitespace run, then `m`, then a whitespace run, and `m` has no
      whitespace at either end, stripping `s` yields `m`. */
  lemma {:induction false} StripExact(pre: string, m: string, post: string)
    requires AllSpace(pre) && AllSpace(post) && NoOuterSpace(m) && |m| > 0
    ensures Strip(pre + m + post) == m
  {
    assert pre + m + post == pre + (m + post);
    assert (m + post)[0] == m[0];
    TrimStartExact(pre, m + post);
    assert TrimStart(pre + m + post) == m + post;
    TrimEndExact(m, post);
  }

  lemma {:induction false} TrimStartExact(pre: string, rest: string)
    requires AllSpace(pre) && |rest| > 0 && !IsSpace(rest[0])
    ensures TrimStart(pre + rest) == rest
    decreases |pre|
  {
    if |pre| > 0 {
      assert (pre + rest)[1..] == pre[1..] + rest;
      TrimStartExact(pre[1..], rest);
    } else {
      assert pre + rest == rest;
    }
  }

  lemma {:induction false} TrimEndExact(rest: string, post: string)
    requires AllSpace(post) && |rest| > 0 && !IsSpace(rest[|rest| - 1])
    ensures TrimEnd(rest + post) == rest
    decreases |post|
  {
    if |post| > 0 {
      assert (rest + post)[..|rest + post| - 1] == rest + post[..|post| - 1];
      TrimEndExact(rest, post[..|post| - 1]);
    } else {
      assert rest + post == rest;
    }
  }

  /** A string made only of whitespace strips to the empty string. */
  lemma {:induction false} StripAllSpace(s: string)
    requires AllSpace(s)
    ensures Strip(s) == ""
  {
  }

  /** Stripping twice is stripping once. */
  lemma {:induction false} StripIdempotent(s: string)
    ensures Strip(Strip(s)) == Strip(s)
  {
    var m := Strip(s);
    if |m| > 0 {
      StripExact("", m, "");
      assert "" + m + "" == m;
    }
  }

  /** Only an all-whitespace string strips to nothing. */
  lemma StripEmptyIsBlank(s: string)
    requires Strip(s) == ""
    ensures AllSpace(s)
  {
    var r1 := TrimStart(s);
    assert AllSpace(r1[0..]);
    assert r1[0..] == r1;
    // a non-empty `r1` would start with a non-space character
    assert |r1| == 0;
    assert s[..|s|] == s;
  }

  /** `w` occurs in `s` starting at index `i`. */
  predicate HasAt(s: string, i: int, w: string) {
    0 <= i && i + |w| <= |s| && s[i..i + |w|] == w
  }

  /** Python `w in s`. */
  predicate Contains(s: string, w: string) {
    exists i :: 0 <= i <= |s| && HasAt(s, i, w)
  }

  /** Occurrences are unaffected by a prefix, up to the shift. */
  lemma HasAtShift(p: string, s: string, i: int, w: string)
    requires 0 <= i
    ensures HasAt(p + s, |p| + i, w) <==> HasAt(s, i, w)
  {
    if i + |w| <= |s| {
      assert (p + s)[|p| + i..|p| + i + |w|] == s[i..i + |w|];
    }
  }

  /** A word without a line break that does not occur in `x` cannot start
      anywhere in `x`, nor at the line break that follows it. */
  lemma NotAcrossBreak(x: string, y: string, w: string, i: int)
    requires !Contains(x, w) && |w| > 0 && '\n' !in w
    requires 0 <= i <= |x|
    ensures !HasAt(x + "\n" + y, i, w)
  {
    var s := x + "\n" + y;
    if i + |w| <= |x| {
      assert s[i..i + |w|] == x[i..i + |w|];
      assert !HasAt(x, i, w);
    } else if i + |w| <= |s| {
      assert s[i..i + |w|][|x| - i] == '\n';
    }
  }

  /** Python `sep.join(xs)`. */
  function Join(xs: seq<string>, sep: string): (r: string)
    ensures |xs| == 1 ==> r == xs[0]
    ensures |xs| == 0 ==> r == ""
    ensures |xs| > 1 ==> |r| >= |xs[0]| + |sep| && r[..|xs[0]|] == xs[0] && r[|xs[0]|..|xs[0]| + |sep|] == sep
  {
    if |xs| == 0 then ""
    else if |xs| == 1 then xs[0]
    else xs[0] + sep + Join(xs[1..], sep)
  }

  /** The joined string ends with the last element. */
  lemma {:induction false} JoinEndsWithLast(xs: seq<string>, sep: string)
    requires |xs| > 0
    ensures var r := Join(xs, sep); |r| >= |xs[|xs| - 1]| && r[|r| - |xs[|xs| - 1]|..] == xs[|xs| - 1]
    decreases |xs|
  {
    if |xs| > 1 {
      JoinEndsWithLast(xs[1..], sep);
      var rest := Join(xs[1..], sep);
      var last := xs[|xs| - 1];
      assert xs[1..][|xs| - 2] == last;
      var r := xs[0] + sep + rest;
      assert r[|r| - |last|..] == rest[|rest| - |last|..];
    }
  }
}
