/**
 * The e-mail shape check `/^[^\s@]+@[^\s@]+\.[^\s@]+$/`.
 *
 * `MatchesEmailPattern` is the set of strings the regular expression matches,
 * written as the split it asks for. `IsWellShapedEmail` is a structural reading of
 * the same check that can be computed directly. `EmailShapeIsPattern` proves the
 * two agree on every string. Neither is RFC 5322: quoted local parts, comments and
 * address literals are not handled, and "a@b.c" is accepted.
 */
module EmailPattern {

  import opened JsText

  const At: CodeUnit := 0x40
  const Dot: CodeUnit := 0x2E

  /** A code unit matched by the class `[^\s@]`. */
  predicate IsAtomUnit(u: CodeUnit) {
    !IsWhiteSpace(u) && u != At
  }

  /** Units `lo` up to `hi` of `s` form a run matched by `[^\s@]+`. */
  predicate IsAtomRun(s: JsString, lo: nat, hi: nat)
    requires lo <= hi <= |s|
  {
    lo < hi && forall n | lo <= n < hi :: IsAtomUnit(s[n])
  }

  /**
   * `s` splits as `a '@' b '.' c` with the '@' at `i` and the '.' at `j`, where each
   * of `a`, `b` and `c` is a run matched by `[^\s@]+`. The anchors `^` and `$` make
   * the three runs cover the whole string.
   */
  predicate SplitsAt(s: JsString, i: nat, j: nat) {
    && i < j < |s|
    && s[i] == At && s[j] == Dot
    && IsAtomRun(s, 0, i) && IsAtomRun(s, i + 1, j) && IsAtomRun(s, j + 1, |s|)
  }

  /** The language of the pattern: the strings that split as it asks. */
  ghost predicate MatchesEmailPattern(s: JsString)
    ensures MatchesEmailPattern(s) ==>
      |s| >= 5 && IsAtomUnit(s[0]) && IsAtomUnit(s[|s| - 1])
  {
    exists i: nat, j: nat :: SplitsAt(s, i, j)
  }

  /** How many times `u` occurs in `s`. */
  function Count(s: JsString, u: CodeUnit): (n: nat)
    ensures n <= |s|
    ensures n == 0 <==> forall i | 0 <= i < |s| :: s[i] != u
  {
    if s == [] then 0
    else (if s[0] == u then 1 else 0) + Count(s[1..], u)
  }

  /** The index of the first `u` in `s`, or `|s|` when there is none. */
  function IndexOf(s: JsString, u: CodeUnit): (k: nat)
    ensures k <= |s|
    ensures forall i | 0 <= i < k :: s[i] != u
    ensures k < |s| ==> s[k] == u
  {
    if s == [] then 0
    else if s[0] == u then 0
    else 1 + IndexOf(s[1..], u)
  }

  /** `d` has a '.' with at least one unit before it and one after it. */
  predicate HasInnerDot(d: JsString) {
    exists j | 0 < j < |d| - 1 :: d[j] == Dot
  }

  /**
   * The structural reading of the check: no whitespace anywhere, exactly one '@',
   * a non-empty part before it, and a part after it that holds a '.' which is
   * neither its first nor its last unit.
   */
  predicate IsWellShapedEmail(s: JsString) {
    && (forall i | 0 <= i < |s| :: !IsWhiteSpace(s[i]))
    && Count(s, At) == 1
    && var k := IndexOf(s, At);
       0 < k < |s| && HasInnerDot(s[k + 1..])
  }

  // ---------------------------------------------------------------------------

  lemma {:induction false} CountAppend(a: JsString, b: JsString, u: CodeUnit)
    ensures Count(a + b, u) == Count(a, u) + Count(b, u)
  {
    if a == [] {
      assert a + b == b;
    } else {
      assert (a + b)[0] == a[0];
      assert (a + b)[1..] == a[1..] + b;
      CountAppend(a[1..], b, u);
    }
  }

  /** The pattern and the structural reading accept exactly the same strings. */
  lemma EmailShapeIsPattern(s: JsString)
    ensures IsWellShapedEmail(s) <==> MatchesEmailPattern(s)
  {
    if IsWellShapedEmail(s) {
      ShapeGivesPattern(s);
    }
    if MatchesEmailPattern(s) {
      PatternGivesShape(s);
    }
  }

  lemma {:induction false} CountSplit(s: JsString, k: nat, u: CodeUnit)
    requires k <= |s|
    ensures Count(s, u) == Count(s[..k], u) + Count(s[k..], u)
  {
    assert s == s[..k] + s[k..];
    CountAppend(s[..k], s[k..], u);
  }

  /** Splitting at the first '@' of a well-shaped address leaves no '@' after it. */
  lemma NoAtAfterFirst(s: JsString, k: nat)
    requires k < |s| && s[k] == At && Count(s, At) == 1
    requires forall n | 0 <= n < k :: s[n] != At
    ensures forall n | k < n < |s| :: s[n] != At
  {
    CountSplit(s, k, At);
    var t := s[k..];
    assert t[0] == At && t[1..] == s[k + 1..];
    assert Count(s[k + 1..], At) == 0;
    forall n | k < n < |s| ensures s[n] != At {
      assert s[n] == s[k + 1..][n - k - 1];
    }
  }

  lemma ShapeGivesPattern(s: JsString)
    requires IsWellShapedEmail(s)
    ensures MatchesEmailPattern(s)
  {
    var k := IndexOf(s, At);
    var d := s[k + 1..];
    var j :| 0 < j < |d| - 1 && d[j] == Dot;
    NoAtAfterFirst(s, k);
    var j' := k + 1 + j;
    assert s[j'] == d[j];
    assert SplitsAt(s, k, j');
  }

  lemma PatternGivesShape(s: JsString)
    requires MatchesEmailPattern(s)
    ensures IsWellShapedEmail(s)
  {
    var i: nat, j: nat :| SplitsAt(s, i, j);
    SplitIsWellShaped(s, i, j);
  }

  /** The split the pattern asks for yields the structural shape. */
  lemma SplitIsWellShaped(s: JsString, i: nat, j: nat)
    requires SplitsAt(s, i, j)
    ensures IsWellShapedEmail(s)
  {
    assert forall n | 0 <= n < |s| && n != i :: IsAtomUnit(s[n]);
    assert IndexOf(s, At) == i;
    var d := s[i + 1..];
    assert Count(s[..i], At) == 0;
    assert Count(d, At) == 0 by {
      forall n | 0 <= n < |d| ensures d[n] != At {
        assert d[n] == s[i + 1 + n];
      }
    }
    CountSplit(s, i, At);
    assert s[i..][0] == At && s[i..][1..] == d;
    assert d[j - i - 1] == Dot;
  }
}
