/** Label rules: an ordered list of (condition, tag) pairs; every rule whose
    condition holds appends its tag, in list order. */
module Labels {

  datatype Rule = Rule(fires: bool, tag: string)

  /** The tags of the rules that fire, in rule order. */
  function Select(rules: seq<Rule>): (r: seq<string>)
    ensures |r| <= |rules|
    ensures forall k :: 0 <= k < |rules| && rules[k].fires ==> rules[k].tag in r
    ensures forall t :: t in r ==> exists k :: 0 <= k < |rules| && rules[k].fires && rules[k].tag == t
  {
    if |rules| == 0 then []
    else (if rules[0].fires then [rules[0].tag] else []) + Select(rules[1..])
  }

  /** Every rule's tag, in rule order: the archetype's label vocabulary. */
  function Tags(rules: seq<Rule>): (r: seq<string>)
    ensures |r| == |rules| && forall i :: 0 <= i < |rules| ==> r[i] == rules[i].tag
  {
    if |rules| == 0 then [] else [rules[0].tag] + Tags(rules[1..])
  }

  /** `a` is `b` with some elements left out, order kept. */
  predicate IsSubsequence(a: seq<string>, b: seq<string>) {
    if |b| == 0 then |a| == 0
    else (|a| > 0 && a[0] == b[0] && IsSubsequence(a[1..], b[1..])) || IsSubsequence(a, b[1..])
  }

  ghost predicate Distinct(ts: seq<string>) {
    forall i, j :: 0 <= i < j < |ts| ==> ts[i] != ts[j]
  }

  /** With distinct tags, a rule's tag is selected exactly when the rule
      fires, and the selection keeps the vocabulary's order. */
  lemma {:induction false} SelectFacts(rules: seq<Rule>)
    requires Distinct(Tags(rules))
    ensures IsSubsequence(Select(rules), Tags(rules))
    ensures forall k :: 0 <= k < |rules| ==> (rules[k].tag in Select(rules) <==> rules[k].fires)
    ensures forall t :: t in Select(rules) ==> t in Tags(rules)
    decreases |rules|
  {
    if |rules| > 0 {
      var rest := rules[1..];
      assert Tags(rest) == Tags(rules)[1..];
      SelectFacts(rest);
      var a := Select(rules);
      if rules[0].fires {
        assert a[0] == Tags(rules)[0] && a[1..] == Select(rest);
      } else {
        assert a == Select(rest);
      }
      forall k | 0 < k < |rules|
        ensures rules[k].tag in Select(rules) <==> rules[k].fires
      {
        assert rules[k] == rest[k - 1];
        assert Tags(rules)[0] != Tags(rules)[k];
      }
    }
  }

  /** A subsequence is never longer than the sequence it is taken from. */
  lemma {:induction false} SubsequenceLength(a: seq<string>, b: seq<string>)
    requires IsSubsequence(a, b)
    ensures |a| <= |b|
    decreases |b|
  {
    if |b| > 0 {
      if |a| > 0 && a[0] == b[0] && IsSubsequence(a[1..], b[1..]) {
        SubsequenceLength(a[1..], b[1..]);
      } else {
        SubsequenceLength(a, b[1..]);
      }
    }
  }

  /** A subsequence that leaves out some element is strictly shorter. */
  lemma {:induction false} SubsequenceMissing(a: seq<string>, b: seq<string>, x: string)
    requires IsSubsequence(a, b) && x in b && x !in a
    ensures |a| < |b|
    decreases |b|
  {
    if |a| > 0 && a[0] == b[0] && IsSubsequence(a[1..], b[1..]) {
      assert x != b[0];
      assert x in b[1..];
      assert x !in a[1..];
      SubsequenceMissing(a[1..], b[1..], x);
    } else {
      SubsequenceLength(a, b[1..]);
    }
  }

  /** A subsequence of a duplicate-free sequence has no duplicates. */
  lemma {:induction false} SubsequenceDistinct(a: seq<string>, b: seq<string>)
    requires IsSubsequence(a, b) && Distinct(b)
    ensures Distinct(a)
    decreases |b|
  {
    if |b| > 0 {
      assert Distinct(b[1..]);
      if |a| > 0 && a[0] == b[0] && IsSubsequence(a[1..], b[1..]) {
        SubsequenceDistinct(a[1..], b[1..]);
        SubsequenceMembers(a[1..], b[1..]);
        forall i, j | 0 <= i < j < |a| ensures a[i] != a[j] {
          if i == 0 {
            assert a[j] == a[1..][j - 1];
            assert a[j] in b[1..];
          } else {
            assert a[i] == a[1..][i - 1] && a[j] == a[1..][j - 1];
          }
        }
      } else {
        SubsequenceDistinct(a, b[1..]);
      }
    }
  }

  /** Every element of a subsequence is an element of the sequence. */
  lemma {:induction false} SubsequenceMembers(a: seq<string>, b: seq<string>)
    requires IsSubsequence(a, b)
    ensures forall x :: x in a ==> x in b
    decreases |b|
  {
    if |b| > 0 {
      if |a| > 0 && a[0] == b[0] && IsSubsequence(a[1..], b[1..]) {
        SubsequenceMembers(a[1..], b[1..]);
        assert a == [a[0]] + a[1..];
      } else {
        SubsequenceMembers(a, b[1..]);
      }
    }
  }

  /** Out of a duplicate-free sequence, a subsequence is fixed by which
      elements it keeps. */
  lemma {:induction false} SubsequenceByMembers(a: seq<string>, c: seq<string>, b: seq<string>)
    requires IsSubsequence(a, b) && IsSubsequence(c, b) && Distinct(b)
    requires forall x :: x in b ==> (x in a <==> x in c)
    ensures a == c
    decreases |b|
  {
    if |b| > 0 {
      var rest := b[1..];
      assert Distinct(rest);
      assert b[0] !in rest by {
        forall j | 0 <= j < |rest| ensures rest[j] != b[0] {
          assert rest[j] == b[j + 1];
        }
      }
      var keepA := |a| > 0 && a[0] == b[0] && IsSubsequence(a[1..], rest);
      var keepC := |c| > 0 && c[0] == b[0] && IsSubsequence(c[1..], rest);
      if !keepA { SubsequenceMembers(a, rest); }
      if !keepC { SubsequenceMembers(c, rest); }
      if b[0] in a {
        assert keepA && keepC;
        assert a == [a[0]] + a[1..] && c == [c[0]] + c[1..];
        SubsequenceMembers(a[1..], rest);
        SubsequenceMembers(c[1..], rest);
        forall x | x in rest ensures x in a[1..] <==> x in c[1..] {
          assert x != b[0] && x in b;
          assert (x in a) == (x in a[1..]) && (x in c) == (x in c[1..]);
        }
        SubsequenceByMembers(a[1..], c[1..], rest);
      } else {
        assert !keepA && !keepC;
        forall x | x in rest ensures x in a <==> x in c {
          assert x in b;
        }
        SubsequenceByMembers(a, c, rest);
      }
    }
  }

  /** No labels at all is a subsequence of every vocabulary. */
  lemma {:induction false} EmptySubsequence(b: seq<string>)
    ensures IsSubsequence([], b)
    decreases |b|
  {
    if |b| > 0 {
      EmptySubsequence(b[1..]);
    }
  }
}
