/**
 * The JavaScript string operations the application relies on, over
 * `seq<char>`: `startsWith`, `endsWith`, `includes`, `trim`,
 * `substring(0, n)`, truthiness of a string and decimal formatting of
 * a non-negative integer.
 */
module Text {

  /** `s.startsWith(p)`. */
  predicate StartsWith(s: string, p: string)
  {
    |p| <= |s| && s[..|p|] == p
  }

  /** `s.endsWith(p)`. */
  predicate EndsWith(s: string, p: string)
  {
    |p| <= |s| && s[|s| - |p|..] == p
  }

  /** `s.includes(sub)`: `sub` occurs somewhere in `s`. */
  predicate Includes(s: string, sub: string)
  {
    StartsWith(s, sub) || (s != [] && Includes(s[1..], sub))
  }

  /** `sub` occurring at index `k` of `s` is an occurrence in the sense of `includes`. */
  lemma {:induction false} IncludesAt(s: string, sub: string, k: nat)
    requires k + |sub| <= |s| && s[k..k + |sub|] == sub
    ensures Includes(s, sub)
  {
    if k > 0 {
      assert s[1..][k - 1..k - 1 + |sub|] == s[k..k + |sub|];
      IncludesAt(s[1..], sub, k - 1);
    }
  }

  /** A string includes each of its middle parts. */
  lemma IncludesMiddle(a: string, b: string, c: string)
    ensures Includes(a + b + c, b)
  {
    assert (a + b + c)[|a|..|a| + |b|] == b;
    IncludesAt(a + b + c, b, |a|);
  }

  /** A JavaScript string is truthy exactly when it is not empty. */
  predicate Truthy(s: string)
  {
    s != ""
  }

  /** `a || b` on strings. */
  function OrElse(a: string, b: string): (r: string)
    ensures Truthy(a) ==> r == a
    ensures !Truthy(a) ==> r == b
  {
    if a != "" then a else b
  }

  /**
   * The characters `String.prototype.trim` removes: ECMAScript's
   * WhiteSpace and LineTerminator code points.
   */
  predicate IsJsSpace(c: char)
  {
    || c == '\t' || c == '\n' || c == '\U{000B}' || c == '\U{000C}' || c == '\r'
    || c == ' ' || c == '\U{00A0}' || c == '\U{1680}'
    || ('\U{2000}' <= c <= '\U{200A}')
    || c == '\U{2028}' || c == '\U{2029}' || c == '\U{202F}' || c == '\U{205F}'
    || c == '\U{3000}' || c == '\U{FEFF}'
  }

  /** Text made of white space only, the empty text included. */
  predicate Blank(s: string)
  {
    forall i :: 0 <= i < |s| ==> IsJsSpace(s[i])
  }

  /** `s.trimStart()`. */
  function TrimStart(s: string): (r: string)
    ensures |r| <= |s| && r == s[|s| - |r|..]
    ensures s != [] && !IsJsSpace(s[0]) ==> r == s
  {
    if s != [] && IsJsSpace(s[0]) then TrimStart(s[1..]) else s
  }

  /** `s.trimEnd()`. */
  function TrimEnd(s: string): (r: string)
    ensures r <= s
    ensures s != [] && !IsJsSpace(s[|s| - 1]) ==> r == s
  {
    if s != [] && IsJsSpace(s[|s| - 1]) then TrimEnd(s[..|s| - 1]) else s
  }

  /** `s.trim()`. */
  function Trim(s: string): (r: string)
    ensures |r| <= |s|
    ensures s != [] && !IsJsSpace(s[0]) && !IsJsSpace(s[|s| - 1]) ==> r == s
  {
    TrimEnd(TrimStart(s))
  }

  /** `trimStart` removes exactly the leading white space. */
  lemma {:induction false} TrimStartRemovesLeadingSpace(s: string)
    ensures var r := TrimStart(s);
      && |r| <= |s| && r == s[|s| - |r|..]
      && (r == [] || !IsJsSpace(r[0]))
      && forall i :: 0 <= i < |s| - |r| ==> IsJsSpace(s[i])
  {
    if s != [] && IsJsSpace(s[0]) {
      var t := s[1..];
      TrimStartRemovesLeadingSpace(t);
      var r := TrimStart(t);
      assert t[|t| - |r|..] == s[|s| - |r|..];
      forall i | 0 <= i < |s| - |r| ensures IsJsSpace(s[i]) {
        if i > 0 { assert s[i] == t[i - 1]; }
      }
    }
  }

  /** `trimEnd` removes exactly the trailing white space. */
  lemma {:induction false} TrimEndRemovesTrailingSpace(s: string)
    ensures var r := TrimEnd(s);
      && |r| <= |s| && r == s[..|r|]
      && (r == [] || !IsJsSpace(r[|r| - 1]))
      && forall i :: |r| <= i < |s| ==> IsJsSpace(s[i])
  {
    if s != [] && IsJsSpace(s[|s| - 1]) {
      var t := s[..|s| - 1];
      TrimEndRemovesTrailingSpace(t);
      var r := TrimEnd(t);
      assert t[..|r|] == s[..|r|];
      forall i | |r| <= i < |s| ensures IsJsSpace(s[i]) {
        if i < |s| - 1 { assert s[i] == t[i]; }
      }
    }
  }

  /**
   * `trim` leaves neither leading nor trailing white space, leaves a
   * string without white space unchanged, and yields "" exactly for
   * all-white-space input.
   */
  lemma TrimSpec(s: string)
    ensures var r := Trim(s);
      && |r| <= |s|
      && (r == [] || (!IsJsSpace(r[0]) && !IsJsSpace(r[|r| - 1])))
      && ((forall i :: 0 <= i < |s| ==> !IsJsSpace(s[i])) ==> r == s)
      && (r == [] <==> forall i :: 0 <= i < |s| ==> IsJsSpace(s[i]))
  {
    TrimLeavesNoOuterSpace(s);
    if Trim(s) == [] {
      TrimmedAwayIsBlank(s);
    }
    if Blank(s) {
      BlankTrimsStartAway(s);
    }
  }

  /** What `trim` leaves neither starts nor ends with white space. */
  lemma TrimLeavesNoOuterSpace(s: string)
    ensures var r := Trim(s);
      r == [] || (!IsJsSpace(r[0]) && !IsJsSpace(r[|r| - 1]))
  {
    var t := TrimStart(s);
    var r := TrimEnd(t);
    TrimStartRemovesLeadingSpace(s);
    TrimEndRemovesTrailingSpace(t);
    if r != [] {
      assert r[0] == t[0];
    }
  }

  /** When `trim` leaves nothing, every character was white space. */
  lemma TrimmedAwayIsBlank(s: string)
    requires Trim(s) == []
    ensures Blank(s)
  {
    var t := TrimStart(s);
    TrimStartRemovesLeadingSpace(s);
    TrimEndRemovesTrailingSpace(t);
    assert t == [];
  }

  /** `trimStart` removes all of a blank text. */
  lemma {:induction false} BlankTrimsStartAway(s: string)
    requires Blank(s)
    ensures TrimStart(s) == []
  {
    if s != [] {
      assert forall i :: 0 <= i < |s| - 1 ==> s[1..][i] == s[i + 1];
      BlankTrimsStartAway(s[1..]);
    }
  }

  /** `s.trim()` is empty exactly for blank text. */
  lemma TrimEmptyIffBlank(s: string)
    ensures Trim(s) == "" <==> Blank(s)
  {
    TrimSpec(s);
  }

  /** Trimming twice is trimming once. */
  lemma TrimIdempotent(s: string)
    ensures Trim(Trim(s)) == Trim(s)
  {
    TrimSpec(s);
    var r := Trim(s);
    if r != [] {
      assert TrimStart(r) == r;
      assert TrimEnd(r) == r;
    }
  }

  /** `s.substring(0, n)` for `n >= 0`. */
  function Take(s: string, n: nat): (r: string)
    ensures |r| == if |s| <= n then |s| else n
    ensures r <= s
  {
    if |s| <= n then s else s[..n]
  }

  /** The character of one decimal digit. */
  function DigitChar(d: nat): (c: char)
    requires d < 10
    ensures '0' <= c <= '9' && c as int - '0' as int == d
  {
    ('0' as int + d) as char
  }

  /** The digit a character `'0'`..`'9'` stands for. */
  function DigitValue(c: char): (d: nat)
    requires '0' <= c <= '9'
    ensures d < 10 && DigitChar(d) == c
  {
    c as int - '0' as int
  }

  /** A string of decimal digits. */
  predicate AllDigits(r: string)
  {
    forall i :: 0 <= i < |r| ==> '0' <= r[i] <= '9'
  }

  /** A numeral as `String(n)` writes one: digits only, and no leading zero. */
  predicate Numeral(r: string)
  {
    r != [] && AllDigits(r) && (|r| > 1 ==> r[0] != '0')
  }

  /** The number a string of digits denotes, most significant digit first. */
  function DecimalValue(r: string): nat
    requires AllDigits(r)
  {
    if r == [] then 0 else DecimalValue(r[..|r| - 1]) * 10 + DigitValue(r[|r| - 1])
  }

  /** Decimal rendering of a non-negative integer, as template literals render it. */
  function Decimal(n: nat): (r: string)
    ensures r != [] && (|r| == 1 <==> n < 10)
    ensures forall i :: 0 <= i < |r| ==> '0' <= r[i] <= '9'
    ensures |r| > 1 ==> r[0] != '0'
  {
    if n < 10 then [DigitChar(n)] else Decimal(n / 10) + [DigitChar(n % 10)]
  }

  /** The numeral of `n` denotes `n`. */
  lemma {:induction false} DecimalValueOfDecimal(n: nat)
    ensures Numeral(Decimal(n)) && DecimalValue(Decimal(n)) == n
  {
    var r := Decimal(n);
    if n < 10 {
      assert r[..0] == [];
    } else {
      DecimalValueOfDecimal(n / 10);
      assert r[..|r| - 1] == Decimal(n / 10);
    }
  }

  /** A numeral with a non-zero leading digit denotes a positive number. */
  lemma {:induction false} LeadingDigitPositive(r: string)
    requires r != [] && AllDigits(r) && r[0] != '0'
    ensures DecimalValue(r) >= 1
  {
    if |r| == 1 {
      assert r[..0] == [];
    } else {
      LeadingDigitPositive(r[..|r| - 1]);
    }
  }

  /** Every numeral is the rendering of the number it denotes. */
  lemma {:induction false} DecimalOfDecimalValue(r: string)
    requires Numeral(r)
    ensures Decimal(DecimalValue(r)) == r
  {
    var p := r[..|r| - 1];
    if |r| == 1 {
      assert p == [];
      assert r == [r[0]];
    } else {
      LeadingDigitPositive(p);
      DecimalOfDecimalValue(p);
      var v := DecimalValue(r);
      assert v / 10 == DecimalValue(p) && v % 10 == DigitValue(r[|r| - 1]);
      assert r == p + [r[|r| - 1]];
    }
  }

  /** Two numbers render alike only when they are equal. */
  lemma DecimalInjective(m: nat, n: nat)
    requires Decimal(m) == Decimal(n)
    ensures m == n
  {
    DecimalValueOfDecimal(m);
    DecimalValueOfDecimal(n);
  }
}
