/**
 * The string operations of JavaScript that the client relies on:
 * `String.prototype.trim`, `includes`, `length` (in UTF-16 code units)
 * and `String(n)` for a non-negative integer.
 */
module Text {

  /** The characters `trim` removes: WhiteSpace and LineTerminator of ECMAScript. */
  predicate IsJsSpace(c: char) {
    || c == '\t' || c == '\n' || c == '\U{000B}' || c == '\U{000C}' || c == '\r'
    || c == ' ' || c == '\U{00A0}' || c == '\U{1680}' || ('\U{2000}' <= c <= '\U{200A}')
    || c == '\U{2028}' || c == '\U{2029}' || c == '\U{202F}' || c == '\U{205F}'
    || c == '\U{3000}' || c == '\U{FEFF}'
  }

  predicate AllSpace(s: string) {
    forall i :: 0 <= i < |s| ==> IsJsSpace(s[i])
  }

  /** The end of the run of white space that starts at `i`. */
  function SpaceRunFrom(s: string, i: nat): (k: nat)
    requires i <= |s|
    ensures i <= k <= |s|
    ensures forall j :: i <= j < k ==> IsJsSpace(s[j])
    ensures k < |s| ==> !IsJsSpace(s[k])
    decreases |s| - i
  {
    if i < |s| && IsJsSpace(s[i]) then SpaceRunFrom(s, i + 1) else i
  }

  /** The start of the run of white space that ends at `j`, not going below `lo`. */
  function SpaceRunBefore(s: string, lo: nat, j: nat): (k: nat)
    requires lo <= j <= |s|
    ensures lo <= k <= j
    ensures forall m :: k <= m < j ==> IsJsSpace(s[m])
    ensures k > lo ==> !IsJsSpace(s[k - 1])
    decreases j
  {
    if j > lo && IsJsSpace(s[j - 1]) then SpaceRunBefore(s, lo, j - 1) else j
  }

  /** `r` is the slice of `s` at `k` and only white space surrounds it. */
  predicate TrimmedAt(s: string, r: string, k: int) {
    && 0 <= k <= |s| - |r| && r == s[k..k + |r|]
    && (forall i :: 0 <= i < k ==> IsJsSpace(s[i]))
    && (forall i :: k + |r| <= i < |s| ==> IsJsSpace(s[i]))
  }

  /**
   * `s.trim()`: the white space at both ends removed; what is left neither
   * starts nor ends with white space. Lemma TrimSpec says where it sits.
   */
  function Trim(s: string): (r: string)
    ensures |r| <= |s|
    ensures r == [] || (!IsJsSpace(r[0]) && !IsJsSpace(r[|r| - 1]))
  {
    var a := SpaceRunFrom(s, 0);
    var b := SpaceRunBefore(s, a, |s|);
    s[a..b]
  }

  /**
   * The trimmed text is the slice of `s` outside of which there is only
   * white space, and it is empty exactly when `s` is all white space.
   */
  lemma {:induction false} TrimSpec(s: string)
    ensures TrimmedAt(s, Trim(s), SpaceRunFrom(s, 0))
    ensures Trim(s) == [] <==> AllSpace(s)
  {
    var a := SpaceRunFrom(s, 0);
    var b := SpaceRunBefore(s, a, |s|);
    assert TrimmedAt(s, s[a..b], a);
  }

  /** Trimming twice is trimming once. */
  lemma {:induction false} TrimIdempotent(s: string)
    ensures Trim(Trim(s)) == Trim(s)
  {
    var r := Trim(s);
    var a := SpaceRunFrom(r, 0);
    assert a == 0;
    var b := SpaceRunBefore(r, a, |r|);
    assert b == |r|;
    assert r[0..|r|] == r;
  }

  // ---------------------------------------------------------------------
  // Substrings

  predicate StartsWith(s: string, p: string) {
    |p| <= |s| && s[..|p|] == p
  }

  /** `p` occurs in `s` starting at position `i`. */
  predicate OccursAt(s: string, p: string, i: int) {
    0 <= i <= |s| - |p| && s[i..i + |p|] == p
  }

  /** `s.includes(p)`. */
  predicate Contains(s: string, p: string)
    decreases |s|
  {
    StartsWith(s, p) || (|s| > 0 && Contains(s[1..], p))
  }

  /** `includes` holds exactly when `p` occurs at some position of `s`. */
  lemma {:induction false} ContainsIff(s: string, p: string)
    ensures Contains(s, p) <==> exists i :: OccursAt(s, p, i)
    decreases |s|
  {
    assert StartsWith(s, p) ==> OccursAt(s, p, 0);
    if |s| > 0 {
      ContainsIff(s[1..], p);
      if Contains(s[1..], p) {
        var i :| OccursAt(s[1..], p, i);
        assert s[i + 1..i + 1 + |p|] == s[1..][i..i + |p|];
        assert OccursAt(s, p, i + 1);
      }
      if exists i :: OccursAt(s, p, i) {
        var i :| OccursAt(s, p, i);
        if i == 0 {
          assert StartsWith(s, p);
        } else {
          assert s[1..][i - 1..i - 1 + |p|] == s[i..i + |p|];
          assert OccursAt(s[1..], p, i - 1);
        }
      }
    } else {
      if exists i :: OccursAt(s, p, i) {
        var i :| OccursAt(s, p, i);
        assert s[..|p|] == s[i..i + |p|];
        assert StartsWith(s, p);
      }
    }
  }

  /** A pattern of the length of the text is contained in it only when it is the text. */
  lemma ContainsSameLength(s: string, p: string)
    requires |s| == |p|
    ensures Contains(s, p) <==> s == p
  {
    ContainsIff(s, p);
    if Contains(s, p) {
      var i :| OccursAt(s, p, i);
      assert i == 0 && s[..|s|] == s;
    } else {
      assert s[0..0 + |p|] == s;
    }
  }

  /** A pattern longer than the text is never contained in it. */
  lemma ContainsTooLong(s: string, p: string)
    requires |s| < |p|
    ensures !Contains(s, p)
  {
    ContainsIff(s, p);
  }

  // ---------------------------------------------------------------------
  // Decimal notation

  predicate IsDigit(c: char) {
    '0' <= c <= '9'
  }

  function Digit(d: nat): (c: char)
    requires d < 10
    ensures IsDigit(c)
  {
    ('0' as int + d) as char
  }

  /** `String(n)` for a non-negative integer: its decimal digits, no leading zero. */
  function Decimal(n: nat): (r: string)
    ensures |r| >= 1
    ensures forall i :: 0 <= i < |r| ==> IsDigit(r[i])
    ensures n >= 10 ==> |r| >= 2
  {
    if n < 10 then [Digit(n)] else Decimal(n / 10) + [Digit(n % 10)]
  }

  /** Different numbers have different decimal notations. */
  lemma {:induction false} DecimalInjective(a: nat, b: nat)
    requires Decimal(a) == Decimal(b)
    ensures a == b
  {
    if a >= 10 && b >= 10 {
      var da, db := Decimal(a), Decimal(b);
      assert da[|da| - 1] == Digit(a % 10) && db[|db| - 1] == Digit(b % 10);
      assert da[..|da| - 1] == Decimal(a / 10) && db[..|db| - 1] == Decimal(b / 10);
      DecimalInjective(a / 10, b / 10);
    } else if a < 10 && b < 10 {
      assert Decimal(a)[0] == Digit(a);
    }
  }

  /** Numbers below 1000 print in at most three digits, and in exactly three from 100 on. */
  lemma DecimalLength(n: nat)
    requires n <= 999
    ensures n < 100 ==> |Decimal(n)| <= 2
    ensures 100 <= n ==> |Decimal(n)| == 3
  {
    if n >= 10 {
      assert Decimal(n) == Decimal(n / 10) + [Digit(n % 10)];
      if n / 10 >= 10 {
        assert Decimal(n / 10) == Decimal(n / 100) + [Digit((n / 10) % 10)];
      }
    }
  }

  /**
   * For texts that are statuses below 1000, `includes` of a three-digit
   * status is plain equality of the two numbers.
   */
  lemma ThreeDigitContains(n: nat, k: nat)
    requires n <= 999 && 100 <= k <= 999
    ensures Contains(Decimal(n), Decimal(k)) <==> n == k
  {
    DecimalLength(n);
    DecimalLength(k);
    if n < 100 {
      ContainsTooLong(Decimal(n), Decimal(k));
    } else {
      ContainsSameLength(Decimal(n), Decimal(k));
      if Decimal(n) == Decimal(k) { DecimalInjective(n, k); }
    }
  }

  /**
   * A prefix without digits cannot hide or create an occurrence of a
   * pattern that starts with a digit.
   */
  lemma ContainsAfterDigitFreePrefix(pre: string, s: string, p: string)
    requires |p| > 0 && IsDigit(p[0])
    requires forall i :: 0 <= i < |pre| ==> !IsDigit(pre[i])
    ensures Contains(pre + s, p) <==> Contains(s, p)
  {
    var t := pre + s;
    ContainsIff(t, p);
    ContainsIff(s, p);
    if Contains(t, p) {
      var i :| OccursAt(t, p, i);
      assert t[i..i + |p|][0] == t[i];
      assert i >= |pre|;
      ShiftedOccurrence(pre, s, p, i - |pre|);
    }
    if Contains(s, p) {
      var i :| OccursAt(s, p, i);
      ShiftedOccurrence(pre, s, p, i);
    }
  }

  /** An occurrence in `s` is an occurrence in `pre + s`, `|pre|` further on. */
  lemma ShiftedOccurrence(pre: string, s: string, p: string, i: int)
    requires 0 <= i
    ensures OccursAt(s, p, i) <==> OccursAt(pre + s, p, i + |pre|)
  {
    if 0 <= i <= |s| - |p| {
      assert (pre + s)[i + |pre|..i + |pre| + |p|] == s[i..i + |p|];
    }
  }

  // ---------------------------------------------------------------------
  // Lengths and character classes

  /** `s.length`: characters outside the Basic Multilingual Plane count twice. */
  function Utf16Length(s: string): nat {
    if s == [] then 0 else (if s[0] as int > 0xFFFF then 2 else 1) + Utf16Length(s[1..])
  }

  /** The class `[a-zA-Z0-9]`. */
  predicate IsAsciiAlnum(c: char) {
    ('a' <= c <= 'z') || ('A' <= c <= 'Z') || ('0' <= c <= '9')
  }
}
