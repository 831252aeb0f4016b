/**
 * The JavaScript string primitives the contact validator relies on.
 *
 * A JavaScript string is a sequence of UTF-16 code units: `length`, `trim()`,
 * `replace` and regular expressions without the `u` flag all work unit by unit,
 * so a character outside the Basic Multilingual Plane counts as two.
 */
module JsText {

  /** One UTF-16 code unit. */
  type CodeUnit = u: int | 0 <= u < 0x1_0000

  type JsString = seq<CodeUnit>

  /**
   * The JavaScript string of a text whose characters all lie in the Basic
   * Multilingual Plane, where each character is a single code unit. Every
   * constant text of the servers is ASCII.
   */
  function Text(s: string): (r: JsString)
    requires forall i | 0 <= i < |s| :: s[i] as int < 0x1_0000
    ensures |r| == |s| && forall i | 0 <= i < |s| :: r[i] == s[i] as int
  {
    seq(|s|, i requires 0 <= i < |s| => s[i] as int)
  }

  /**
   * The code units that `\s` matches and that `trim()` strips: ECMAScript's
   * WhiteSpace (tab, vertical tab, form feed, no-break space, byte order mark and
   * the space separators) and LineTerminator (line feed, carriage return, line
   * and paragraph separators).
   */
  predicate IsWhiteSpace(u: CodeUnit)
    ensures u < 0x80 ==> (IsWhiteSpace(u) <==> u == 0x20 || 0x09 <= u <= 0x0D)
    ensures IsWhiteSpace(u) ==> !IsDigit(u) && u != 0x40 && u != 0x2E
  {
    || u == 0x09 || u == 0x0A || u == 0x0B || u == 0x0C || u == 0x0D
    || u == 0x20 || u == 0xA0 || u == 0x1680
    || (0x2000 <= u <= 0x200A)
    || u == 0x2028 || u == 0x2029 || u == 0x202F || u == 0x205F
    || u == 0x3000 || u == 0xFEFF
  }

  /** The code units that `\d` matches: '0' to '9' only. */
  predicate IsDigit(u: CodeUnit) {
    0x30 <= u <= 0x39
  }

  predicate AllWhiteSpace(s: JsString) {
    forall i | 0 <= i < |s| :: IsWhiteSpace(s[i])
  }

  predicate AllDigits(s: JsString) {
    forall i | 0 <= i < |s| :: IsDigit(s[i])
  }

  /** The leading half of `trim()`: drops the longest all-whitespace prefix. */
  function TrimStart(s: JsString): (r: JsString)
    ensures |r| <= |s| && r == s[|s| - |r|..]
    ensures AllWhiteSpace(s[..|s| - |r|])
    ensures r == [] || !IsWhiteSpace(r[0])
  {
    if s != [] && IsWhiteSpace(s[0]) then TrimStart(s[1..]) else s
  }

  /** The trailing half of `trim()`: drops the longest all-whitespace suffix. */
  function TrimEnd(s: JsString): (r: JsString)
    ensures |r| <= |s| && r == s[..|r|]
    ensures AllWhiteSpace(s[|r|..])
    ensures r == [] || !IsWhiteSpace(r[|r| - 1])
  {
    if s != [] && IsWhiteSpace(s[|s| - 1]) then TrimEnd(s[..|s| - 1]) else s
  }

  /**
   * `String.prototype.trim`: the longest slice of `s` that neither starts nor
   * ends with whitespace, once the whitespace around it is removed.
   */
  function Trim(s: JsString): (r: JsString)
    ensures |r| <= |s|
    ensures r == [] <==> AllWhiteSpace(s)
    ensures r != [] ==> !IsWhiteSpace(r[0]) && !IsWhiteSpace(r[|r| - 1])
    ensures exists a, b | 0 <= a <= b <= |s| ::
      r == s[a..b] && AllWhiteSpace(s[..a]) && AllWhiteSpace(s[b..])
  {
    var t := TrimStart(s);
    var r := TrimEnd(t);
    var a, b := |s| - |t|, |s| - |t| + |r|;
    assert r == s[a..b] && s[b..] == t[|r|..];
    assert r == [] ==> AllWhiteSpace(s) by {
      if r == [] {
        assert s == s[..|s| - |t|] + t;
        assert t == t[|r|..];
      }
    }
    assert r != [] ==> !IsWhiteSpace(r[0]) by {
      if r != [] { assert r[0] == t[0]; }
    }
    r
  }

  /** `s.replace(/\D/g, '')`: the digits of `s`, in order, and nothing else. */
  function StripNonDigits(s: JsString): (r: JsString)
    ensures |r| <= |s|
    ensures AllDigits(r)
  {
    if s == [] then []
    else if IsDigit(s[0]) then [s[0]] + StripNonDigits(s[1..])
    else StripNonDigits(s[1..])
  }

  /** The test `/^\d{10}$/.test(s)`: exactly ten code units, every one a digit. */
  predicate IsTenDigits(s: JsString) {
    |s| == 10 && AllDigits(s)
  }

  // ---------------------------------------------------------------------------
  // Trimming ignores surrounding whitespace.

  lemma {:induction false} TrimStartSkipsWhiteSpace(p: JsString, s: JsString)
    requires AllWhiteSpace(p)
    ensures TrimStart(p + s) == TrimStart(s)
  {
    if p == [] {
      assert p + s == s;
    } else {
      assert (p + s)[1..] == p[1..] + s;
      TrimStartSkipsWhiteSpace(p[1..], s);
    }
  }

  lemma {:induction false} TrimEndSkipsWhiteSpace(s: JsString, q: JsString)
    requires AllWhiteSpace(q)
    ensures TrimEnd(s + q) == TrimEnd(s)
  {
    if q == [] {
      assert s + q == s;
    } else {
      var n := |s + q|;
      assert (s + q)[..n - 1] == s + q[..|q| - 1];
      TrimEndSkipsWhiteSpace(s, q[..|q| - 1]);
    }
  }

  /** Text after the first non-whitespace unit is kept by TrimStart. */
  lemma {:induction false} TrimStartKeepsTail(s: JsString, q: JsString)
    requires TrimStart(s) != []
    ensures TrimStart(s + q) == TrimStart(s) + q
  {
    assert s != [];
    assert (s + q)[0] == s[0];
    if IsWhiteSpace(s[0]) {
      assert (s + q)[1..] == s[1..] + q;
      TrimStartKeepsTail(s[1..], q);
    }
  }

  /** Padding a string with whitespace on either side does not change what `trim()` returns. */
  lemma TrimIgnoresPadding(p: JsString, s: JsString, q: JsString)
    requires AllWhiteSpace(p) && AllWhiteSpace(q)
    ensures Trim(p + s + q) == Trim(s)
  {
    assert p + s + q == p + (s + q);
    TrimStartSkipsWhiteSpace(p, s + q);
    if TrimStart(s) == [] {
      assert AllWhiteSpace(s) by { assert s == s[..|s| - 0]; }
      assert AllWhiteSpace(s + q);
      assert Trim(s + q) == [];
    } else {
      TrimStartKeepsTail(s, q);
      TrimEndSkipsWhiteSpace(TrimStart(s), q);
    }
  }

  // ---------------------------------------------------------------------------
  // Digit stripping keeps the digit subsequence.

  /** Stripping distributes over concatenation, so it keeps digits in their order. */
  lemma {:induction false} StripNonDigitsAppend(a: JsString, b: JsString)
    ensures StripNonDigits(a + b) == StripNonDigits(a) + StripNonDigits(b)
  {
    if a == [] {
      assert a + b == b;
    } else {
      assert (a + b)[0] == a[0];
      assert (a + b)[1..] == a[1..] + b;
      StripNonDigitsAppend(a[1..], b);
    }
  }

  /** A string of digits only is left unchanged. */
  lemma {:induction false} StripNonDigitsKeepsDigits(s: JsString)
    requires AllDigits(s)
    ensures StripNonDigits(s) == s
  {
    if s != [] {
      StripNonDigitsKeepsDigits(s[1..]);
    }
  }

  /** A string without digits is stripped to nothing. */
  lemma {:induction false} StripNonDigitsDropsOthers(s: JsString)
    requires forall i | 0 <= i < |s| :: !IsDigit(s[i])
    ensures StripNonDigits(s) == []
  {
    if s != [] {
      StripNonDigitsDropsOthers(s[1..]);
    }
  }
}
