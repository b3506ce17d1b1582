/**
 * Topic rendering: the publish worker substitutes the decimal light id for
 * every `[NUM]` in the configured topic template (Python's `str.replace`).
 */
module Topic {

  /** The placeholder the topic template must contain. */
  const PLACEHOLDER: string := "[NUM]"

  predicate IsDigit(c: char) {
    '0' <= c <= '9'
  }

  function DigitChar(d: nat): (c: char)
    requires d < 10
    ensures IsDigit(c)
  {
    ('0' as int + d) as char
  }

  function DigitValue(c: char): nat
    requires IsDigit(c)
  {
    (c as int - '0' as int) as nat
  }

  /** Python's `str(n)` for a non-negative integer. */
  function Decimal(n: nat): (s: string)
    ensures |s| > 0
    ensures forall k :: 0 <= k < |s| ==> IsDigit(s[k])
    ensures s[0] == '0' ==> n == 0
    decreases n
  {
    if n < 10 then [DigitChar(n)] else Decimal(n / 10) + [DigitChar(n % 10)]
  }

  /** Reads a string of decimal digits back as a number. */
  function ParseDecimal(s: string): nat
    requires forall k :: 0 <= k < |s| ==> IsDigit(s[k])
  {
    if s == [] then 0 else 10 * ParseDecimal(s[..|s| - 1]) + DigitValue(s[|s| - 1])
  }

  /** Rendering an id in decimal loses nothing. */
  lemma {:induction false} DecimalRoundTrip(n: nat)
    ensures ParseDecimal(Decimal(n)) == n
    decreases n
  {
    var s := Decimal(n);
    if n >= 10 {
      DecimalRoundTrip(n / 10);
      assert s[..|s| - 1] == Decimal(n / 10);
    }
  }

  /** Different ids render as different strings. */
  lemma DecimalInjective(m: nat, n: nat)
    requires Decimal(m) == Decimal(n)
    ensures m == n
  {
    DecimalRoundTrip(m);
    DecimalRoundTrip(n);
  }

  /** `pat` occurs in `s` starting at position `p`. */
  predicate MatchAt(s: string, pat: string, p: int) {
    0 <= p && p + |pat| <= |s| && s[p..p + |pat|] == pat
  }

  /** Python's `pat in s`. */
  predicate Contains(s: string, pat: string) {
    exists p | 0 <= p <= |s| :: MatchAt(s, pat, p)
  }

  /**
   * Python's `s.replace(pat, rep)` for a non-empty `pat`: scanning left to
   * right, each non-overlapping occurrence is replaced.
   */
  function Replace(s: string, pat: string, rep: string): string
    requires |pat| > 0
    decreases |s|
  {
    if |s| < |pat| then s
    else if s[..|pat|] == pat then rep + Replace(s[|pat|..], pat, rep)
    else [s[0]] + Replace(s[1..], pat, rep)
  }

  /** The topic a light's message is published on. */
  function Render(template: string, id: nat): string {
    Replace(template, PLACEHOLDER, Decimal(id))
  }

  /** A template without an occurrence of the pattern is left unchanged. */
  lemma {:induction false} ReplaceWithoutMatch(s: string, pat: string, rep: string)
    requires |pat| > 0 && !Contains(s, pat)
    ensures Replace(s, pat, rep) == s
    decreases |s|
  {
    if |s| >= |pat| {
      assert !MatchAt(s, pat, 0);
      assert !Contains(s[1..], pat) by {
        forall p | 0 <= p <= |s| - 1 ensures !MatchAt(s[1..], pat, p) {
          assert !MatchAt(s, pat, p + 1);
        }
      }
      ReplaceWithoutMatch(s[1..], pat, rep);
    }
  }

  /**
   * Replacing at the first occurrence: the text before it is kept, the
   * occurrence becomes `rep`, and the rest is replaced in turn.
   */
  lemma {:induction false} ReplaceFirstMatch(a: string, pat: string, b: string, rep: string)
    requires |pat| > 0
    requires forall p | 0 <= p < |a| :: !MatchAt(a + pat + b, pat, p)
    ensures Replace(a + pat + b, pat, rep) == a + rep + Replace(b, pat, rep)
    decreases |a|
  {
    var s := a + pat + b;
    if a == [] {
      assert s == pat + b;
      assert s[..|pat|] == pat;
      assert s[|pat|..] == b;
    } else {
      var t := a[1..] + pat + b;
      assert !MatchAt(s, pat, 0);
      ReplaceKeepsHead(s, pat, rep);
      assert s[1..] == t;
      ShiftNoMatch(a, pat, b);
      ReplaceFirstMatch(a[1..], pat, b, rep);
      assert [a[0]] + (a[1..] + rep + Replace(b, pat, rep)) == a + rep + Replace(b, pat, rep);
    }
  }

  /** Without an occurrence at the front, the first character is copied. */
  lemma ReplaceKeepsHead(s: string, pat: string, rep: string)
    requires |pat| > 0 && |s| >= |pat| && !MatchAt(s, pat, 0)
    ensures Replace(s, pat, rep) == [s[0]] + Replace(s[1..], pat, rep)
  {
    assert s[..|pat|] != pat;
  }

  /** Dropping the first character of the text before the occurrence keeps it the first. */
  lemma ShiftNoMatch(a: string, pat: string, b: string)
    requires a != [] && forall p | 0 <= p < |a| :: !MatchAt(a + pat + b, pat, p)
    ensures forall p | 0 <= p < |a| - 1 :: !MatchAt(a[1..] + pat + b, pat, p)
  {
    var s, t := a + pat + b, a[1..] + pat + b;
    forall p | 0 <= p < |a| - 1 ensures !MatchAt(t, pat, p) {
      assert !MatchAt(s, pat, p + 1);
      assert s[p + 1..p + 1 + |pat|] == t[p..p + |pat|];
    }
  }

  /** A nonempty string of decimal digits, as the text of a light id is. */
  predicate SafeReplacement(rep: string) {
    |rep| > 0 && (forall k :: 0 <= k < |rep| ==> IsDigit(rep[k]))
  }

  /**
   * If the replacement of `s` starts with `w`, a word of characters that
   * are neither digits nor `[`, then `s` itself starts with `w`.
   */
  lemma {:induction false} PrefixKept(s: string, w: string, rep: string)
    requires SafeReplacement(rep)
    requires forall k :: 0 <= k < |w| ==> !IsDigit(w[k]) && w[k] != '['
    requires |w| <= |Replace(s, PLACEHOLDER, rep)| && Replace(s, PLACEHOLDER, rep)[..|w|] == w
    ensures |w| <= |s| && s[..|w|] == w
    decreases |s|
  {
    var r := Replace(s, PLACEHOLDER, rep);
    if w != [] && |s| >= |PLACEHOLDER| {
      assert !IsDigit(r[0]) by { assert r[0] == w[0]; }
      assert s[..|PLACEHOLDER|] != PLACEHOLDER;
      {
        var tail := Replace(s[1..], PLACEHOLDER, rep);
        assert r == [s[0]] + tail;
        assert tail[..|w| - 1] == w[1..];
        PrefixKept(s[1..], w[1..], rep);
        assert s[..|w|] == [s[0]] + s[1..][..|w| - 1];
      }
    }
  }

  /** Substituting digits for `[NUM]` leaves no `[NUM]` behind. */
  lemma {:induction false} ReplaceLeavesNoPlaceholder(s: string, rep: string)
    requires SafeReplacement(rep)
    ensures !Contains(Replace(s, PLACEHOLDER, rep), PLACEHOLDER)
    decreases |s|
  {
    var r := Replace(s, PLACEHOLDER, rep);
    var n := |PLACEHOLDER|;
    if |s| >= n {
      if s[..n] == PLACEHOLDER {
        var tail := Replace(s[n..], PLACEHOLDER, rep);
        ReplaceLeavesNoPlaceholder(s[n..], rep);
        assert r == rep + tail;
        forall p | 0 <= p <= |r| ensures !MatchAt(r, PLACEHOLDER, p) {
          if p < |rep| {
            assert r[p] == rep[p];
          } else if p + n <= |r| {
            assert r[p..p + n] == tail[p - |rep|..p - |rep| + n];
            assert !MatchAt(tail, PLACEHOLDER, p - |rep|);
          }
        }
      } else {
        var tail := Replace(s[1..], PLACEHOLDER, rep);
        ReplaceLeavesNoPlaceholder(s[1..], rep);
        assert r == [s[0]] + tail;
        forall p | 0 <= p <= |r| ensures !MatchAt(r, PLACEHOLDER, p) {
          if p == 0 {
            if |tail| >= n - 1 && tail[..n - 1] == "NUM]" {
              PrefixKept(s[1..], "NUM]", rep);
              assert s[..n] == [s[0]] + s[1..][..n - 1];
            } else if |r| >= n {
              assert r[1..n] == tail[..n - 1];
            }
          } else if p + n <= |r| {
            assert r[1..] == tail;
            assert r[p..p + n] == tail[p - 1..p - 1 + n];
            assert !MatchAt(tail, PLACEHOLDER, p - 1);
          }
        }
      }
    }
  }

  /** A rendered topic has every `[NUM]` substituted: none is left. */
  lemma RenderComplete(template: string, id: nat)
    ensures !Contains(Render(template, id), PLACEHOLDER)
  {
    ReplaceLeavesNoPlaceholder(template, Decimal(id));
  }

  /** The default template renders as `light/` followed by the id. */
  lemma RenderLightTopic(id: nat)
    ensures Render("light/[NUM]", id) == "light/" + Decimal(id)
  {
    var a := "light/";
    var s := a + PLACEHOLDER + "";
    assert s == "light/[NUM]";
    forall p | 0 <= p < |a| ensures !MatchAt(s, PLACEHOLDER, p) {
      assert s[p] == a[p] && a[p] != '[';
      MismatchBlocks(s, PLACEHOLDER, p);
    }
    ReplaceFirstMatch(a, PLACEHOLDER, "", Decimal(id));
  }

  /** No occurrence starts at a character other than the pattern's first. */
  lemma MismatchBlocks(s: string, pat: string, p: int)
    requires |pat| > 0 && 0 <= p < |s| && s[p] != pat[0]
    ensures !MatchAt(s, pat, p)
  {
    if p + |pat| <= |s| {
      assert s[p..p + |pat|][0] == s[p];
    }
  }

  /** The examples of the default topic: ids 7, 0 and 42. */
  lemma RenderDefaultTopic()
    ensures Render("light/[NUM]", 7) == "light/7"
    ensures Render("light/[NUM]", 0) == "light/0"
    ensures Render("light/[NUM]", 42) == "light/42"
  {
    RenderLightTopic(7);
    assert Decimal(7) == "7";
    RenderLightTopic(0);
    assert Decimal(0) == "0";
    RenderLightTopic(42);
    assert Decimal(42) == Decimal(4) + [DigitChar(2)] == "42";
  }
}
