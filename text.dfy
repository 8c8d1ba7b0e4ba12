/** The JavaScript string operations the application uses: `toLowerCase` and
    `toUpperCase` (on ASCII letters), `includes`, `trim`, `split(c)[0]`, the
    relational operators on strings, `Number.prototype.toString()` of integers and
    `parseInt` with the default radix. */
module Text {
  import opened Common

  function LowerChar(c: char): char {
    if 'A' <= c <= 'Z' then (c as int + 32) as char else c
  }

  function UpperChar(c: char): char {
    if 'a' <= c <= 'z' then (c as int - 32) as char else c
  }

  function Lower(s: string): (r: string)
    ensures |r| == |s|
    ensures forall i :: 0 <= i < |s| ==> r[i] == LowerChar(s[i])
  {
    seq(|s|, i requires 0 <= i < |s| => LowerChar(s[i]))
  }

  function Upper(s: string): (r: string)
    ensures |r| == |s|
    ensures forall i :: 0 <= i < |s| ==> r[i] == UpperChar(s[i])
  {
    seq(|s|, i requires 0 <= i < |s| => UpperChar(s[i]))
  }

  /** Lower-casing forgets the letter case a string had. */
  lemma LowerUpper(s: string)
    ensures Lower(Upper(s)) == Lower(s)
  {
    assert forall i :: 0 <= i < |s| ==> LowerChar(UpperChar(s[i])) == LowerChar(s[i]);
  }

  /** `s.includes(t)`: `t` occurs in `s` at some position. */
  predicate Contains(s: string, t: string) {
    exists i :: 0 <= i <= |s| && t <= s[i..]
  }

  /** `s?.toLowerCase().includes(term)`: a missing string never matches. */
  predicate LowerContains(s: Option<string>, term: string) {
    s.Some? && Contains(Lower(s.value), term)
  }

  lemma ContainsEmpty(s: string)
    ensures Contains(s, "")
  {
    assert "" <= s[0..];
  }

  lemma ContainsSelf(s: string)
    ensures Contains(s, s)
  {
    assert s[0..] == s;
    assert s <= s[0..];
  }

  // ---------------------------------------------------------------------------
  // String.prototype.trim

  /** WhiteSpace and LineTerminator code points of ECMAScript (section 12.2 and 12.3 of ECMA-262). */
  predicate IsSpace(c: char) {
    c == '\t' || c == '\n' || c == '\U{000B}' || c == '\U{000C}' || c == '\r' || c == ' '
    || c == '\U{00A0}' || c == '\U{1680}' || ('\U{2000}' <= c <= '\U{200A}')
    || c == '\U{2028}' || c == '\U{2029}' || c == '\U{202F}' || c == '\U{205F}'
    || c == '\U{3000}' || c == '\U{FEFF}'
  }

  function TrimStart(s: string): (r: string)
    ensures |r| <= |s| && r == s[|s| - |r|..]
    ensures forall k :: 0 <= k < |s| - |r| ==> IsSpace(s[k])
    ensures r == [] || !IsSpace(r[0])
  {
    if s != [] && IsSpace(s[0]) then TrimStart(s[1..]) else s
  }

  function TrimEnd(s: string): (r: string)
    ensures |r| <= |s| && r == s[..|r|]
    ensures forall k :: |r| <= k < |s| ==> IsSpace(s[k])
    ensures r == [] || !IsSpace(r[|r| - 1])
  {
    if s != [] && IsSpace(s[|s| - 1]) then TrimEnd(s[..|s| - 1]) else s
  }

  function Trim(s: string): string {
    TrimEnd(TrimStart(s))
  }

  /** The trimmed string neither starts nor ends with white space. */
  lemma TrimEnds(s: string)
    ensures Trim(s) == [] || (!IsSpace(Trim(s)[0]) && !IsSpace(Trim(s)[|Trim(s)| - 1]))
  {
    var t := TrimStart(s);
    if Trim(s) != [] {
      assert Trim(s)[0] == t[0];
    }
  }

  /** `s.trim()` is empty exactly when `s` holds nothing but white space. */
  lemma TrimEmptyIff(s: string)
    ensures Trim(s) == "" <==> forall k :: 0 <= k < |s| ==> IsSpace(s[k])
  {
    var t := TrimStart(s);
    if Trim(s) == "" {
      forall k | 0 <= k < |s| ensures IsSpace(s[k]) {
        if k >= |s| - |t| {
          assert s[k] == t[k - (|s| - |t|)];
        }
      }
    } else {
      assert !IsSpace(Trim(s)[0]);
    }
  }

  lemma TrimIdempotent(s: string)
    ensures Trim(Trim(s)) == Trim(s)
  {
  }

  // ---------------------------------------------------------------------------
  // s.split(c)[0]

  function PrefixBefore(s: string, c: char): (r: string)
    ensures |r| <= |s| && r == s[..|r|]
    ensures c !in r
    ensures |r| < |s| ==> s[|r|] == c
  {
    if s == [] || s[0] == c then [] else [s[0]] + PrefixBefore(s[1..], c)
  }

  // ---------------------------------------------------------------------------
  // String comparison (`a < b`, code unit by code unit)

  predicate LexLess(a: string, b: string) {
    if b == [] then false
    else if a == [] then true
    else if a[0] != b[0] then a[0] < b[0]
    else LexLess(a[1..], b[1..])
  }

  lemma {:induction false} LexLessIrreflexive(a: string)
    ensures !LexLess(a, a)
  {
    if a != [] {
      LexLessIrreflexive(a[1..]);
    }
  }

  lemma {:induction false} LexLessTransitive(a: string, b: string, c: string)
    requires LexLess(a, b) && LexLess(b, c)
    ensures LexLess(a, c)
  {
    if a != [] && a[0] == b[0] && b[0] == c[0] {
      LexLessTransitive(a[1..], b[1..], c[1..]);
    }
  }

  lemma {:induction false} LexLessTotal(a: string, b: string)
    ensures a == b || LexLess(a, b) || LexLess(b, a)
  {
    if a != [] && b != [] && a[0] == b[0] {
      LexLessTotal(a[1..], b[1..]);
      if a[1..] == b[1..] {
        assert a == [a[0]] + a[1..] && b == [b[0]] + b[1..];
      }
    }
  }

  /** Strings cut into pieces of equal width compare piece by piece. */
  lemma {:induction false} LexLessConcat(x: string, y: string, x2: string, y2: string)
    requires |x| == |x2|
    ensures LexLess(x + y, x2 + y2) <==> LexLess(x, x2) || (x == x2 && LexLess(y, y2))
  {
    if x == [] {
      assert x + y == y && x2 + y2 == y2;
    } else {
      assert (x + y)[0] == x[0] && (x2 + y2)[0] == x2[0];
      assert (x + y)[1..] == x[1..] + y && (x2 + y2)[1..] == x2[1..] + y2;
      LexLessConcat(x[1..], y, x2[1..], y2);
      if x[0] == x2[0] && x[1..] == x2[1..] {
        assert x == [x[0]] + x[1..] && x2 == [x2[0]] + x2[1..];
      }
    }
  }

  lemma ConcatEqual(x: string, y: string, x2: string, y2: string)
    requires |x| == |x2|
    ensures x + y == x2 + y2 <==> x == x2 && y == y2
  {
    if x + y == x2 + y2 {
      assert x == (x + y)[..|x|] && x2 == (x2 + y2)[..|x|];
      assert y == (x + y)[|x|..] && y2 == (x2 + y2)[|x|..];
    }
  }

  /** Behind equal-length heads, order and equality are decided head first. */
  lemma SplitOrder(x: string, y: string, x2: string, y2: string)
    requires |x| == |x2|
    ensures LexLess(x + y, x2 + y2) <==> LexLess(x, x2) || (x == x2 && LexLess(y, y2))
    ensures x + y == x2 + y2 <==> x == x2 && y == y2
  {
    LexLessConcat(x, y, x2, y2);
    ConcatEqual(x, y, x2, y2);
  }

  // ---------------------------------------------------------------------------
  // Decimal digits: Number.prototype.toString() and parseInt

  predicate IsDigit(c: char) {
    '0' <= c <= '9'
  }

  function DigitChar(d: nat): char
    requires d < 10
  {
    ('0' as int + d) as char
  }

  /** The value of a run of digits in base `radix`. */
  function DigitsValue(ds: string, radix: nat): nat
    requires forall k :: 0 <= k < |ds| ==> DigitOf(ds[k]).Some? && DigitOf(ds[k]).value < radix
  {
    if ds == [] then 0
    else
      var init := ds[..|ds| - 1];
      assert forall k :: 0 <= k < |init| ==> init[k] == ds[k];
      DigitsValue(init, radix) * radix + DigitOf(ds[|ds| - 1]).value
  }

  /** The value of a hexadecimal or decimal digit character. */
  function DigitOf(c: char): Option<nat> {
    if '0' <= c <= '9' then Some(c as int - '0' as int)
    else if 'a' <= c <= 'f' then Some(c as int - 'a' as int + 10)
    else if 'A' <= c <= 'F' then Some(c as int - 'A' as int + 10)
    else None
  }

  /** Decimal text of a natural number, without leading zeros. */
  function DecimalString(n: nat): (r: string)
    ensures |r| >= 1
    ensures forall k :: 0 <= k < |r| ==> IsDigit(r[k])
    ensures |r| > 1 ==> r[0] != '0'
  {
    if n < 10 then [DigitChar(n)] else DecimalString(n / 10) + [DigitChar(n % 10)]
  }

  /** Decimal text of an integer, with a leading '-' when negative. */
  function IntString(i: int): string {
    if i < 0 then "-" + DecimalString(-i) else DecimalString(i)
  }

  function Pow10(k: nat): nat {
    if k == 0 then 1 else 10 * Pow10(k - 1)
  }

  /** A number with k digits prints as exactly k characters. */
  lemma {:induction false} DecimalLength(n: nat, k: nat)
    requires k >= 1 && Pow10(k - 1) <= n < Pow10(k)
    ensures |DecimalString(n)| == k
  {
    if k > 1 {
      DecimalLength(n / 10, k - 1);
    }
  }

  lemma {:induction false} DecimalValue(n: nat)
    ensures forall k :: 0 <= k < |DecimalString(n)| ==> DigitOf(DecimalString(n)[k]).Some? && DigitOf(DecimalString(n)[k]).value < 10
    ensures DigitsValue(DecimalString(n), 10) == n
  {
    var r := DecimalString(n);
    if n >= 10 {
      DecimalValue(n / 10);
      assert r[..|r| - 1] == DecimalString(n / 10);
    }
  }

  /** The longest prefix of `s` made of digits of base `radix`. */
  function DigitRun(s: string, radix: nat): (r: string)
    ensures |r| <= |s| && r == s[..|r|]
    ensures forall k :: 0 <= k < |r| ==> DigitOf(r[k]).Some? && DigitOf(r[k]).value < radix
    ensures |r| < |s| ==> DigitOf(s[|r|]).None? || DigitOf(s[|r|]).value >= radix
  {
    if s != [] && DigitOf(s[0]).Some? && DigitOf(s[0]).value < radix then [s[0]] + DigitRun(s[1..], radix) else []
  }

  /** The digits at the start of `b` in base `radix`, read as a number; `None` when there are none. */
  function ParseRun(b: string, radix: nat): (r: Option<nat>)
    ensures r.None? <==> b == [] || DigitOf(b[0]).None? || DigitOf(b[0]).value >= radix
  {
    var z := DigitRun(b, radix);
    if z == [] then None else Some(DigitsValue(z, radix))
  }

  /** The unsigned part of `parseInt`: a `0x` or `0X` prefix selects base 16, otherwise base 10. */
  function ParseUnsigned(u: string): Option<nat> {
    if |u| >= 2 && u[0] == '0' && (u[1] == 'x' || u[1] == 'X') then ParseRun(u[2..], 16) else ParseRun(u, 10)
  }

  /** `parseInt(s)` with the default radix (section 19.2.5 of ECMA-262); `None` is NaN. */
  function ParseInt(s: string): Option<int> {
    var t := TrimStart(s);
    if t != [] && t[0] == '-' then Signed(-1, ParseUnsigned(t[1..]))
    else if t != [] && t[0] == '+' then Signed(1, ParseUnsigned(t[1..]))
    else Signed(1, ParseUnsigned(t))
  }

  function Signed(sign: int, v: Option<nat>): Option<int> {
    match v
    case None => None
    case Some(n) => Some(sign * n)
  }

  lemma {:induction false} DigitRunOfDigits(s: string)
    requires forall k :: 0 <= k < |s| ==> DigitOf(s[k]).Some? && DigitOf(s[k]).value < 10
    ensures DigitRun(s, 10) == s
  {
    if s != [] {
      DigitRunOfDigits(s[1..]);
    }
  }

  lemma ParseUnsignedDecimal(n: nat)
    ensures ParseUnsigned(DecimalString(n)) == Some(n)
  {
    var r := DecimalString(n);
    DecimalValue(n);
    assert !(|r| >= 2 && r[0] == '0') by {
      if |r| >= 2 { assert r[0] != '0'; }
    }
    DigitRunOfDigits(r);
  }

  /** `parseInt(String(i)) === i`: an integer printed in decimal reads back as itself. */
  lemma ParseIntString(i: int)
    ensures ParseInt(IntString(i)) == Some(i)
  {
    var r := IntString(i);
    var d := DecimalString(if i < 0 then -i else i);
    assert IsDigit(d[0]);
    assert r[0] == '-' || IsDigit(r[0]);
    assert !IsSpace(r[0]);
    assert TrimStart(r) == r;
    ParseUnsignedDecimal(if i < 0 then -i else i);
    if i < 0 {
      assert r[1..] == d;
    }
  }
}
