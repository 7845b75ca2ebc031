/** The few JavaScript string and number primitives the dashboard's computations
    rely on: `toLowerCase`, `includes`, `String(n)` for an integer, `parseInt`
    and `split(".")`, stated over `seq<char>`. */
module JsStrings {

  datatype Option<T> = None | Some(value: T)

  // ---------------------------------------------------------------------------
  // toLowerCase (ASCII letters only)

  function LowerChar(c: char): (r: char)
    ensures 'A' <= c <= 'Z' ==> r as int == c as int + 32
    ensures !('A' <= c <= 'Z') ==> r == c
  {
    if 'A' <= c <= 'Z' then (c as int + 32) as char else c
  }

  function ToLower(s: string): (r: string)
    ensures |r| == |s|
    ensures forall i :: 0 <= i < |s| ==> r[i] == LowerChar(s[i])
  {
    if s == [] then [] else [LowerChar(s[0])] + ToLower(s[1..])
  }

  /** Lower-casing a string that holds no upper-case ASCII letter changes nothing. */
  lemma ToLowerOfLower(s: string)
    requires forall i :: 0 <= i < |s| ==> !('A' <= s[i] <= 'Z')
    ensures ToLower(s) == s
  {
  }

  lemma {:induction false} ToLowerIdempotent(s: string)
    ensures ToLower(ToLower(s)) == ToLower(s)
  {
    if s != [] {
      ToLowerIdempotent(s[1..]);
      assert ToLower(s)[1..] == ToLower(s[1..]);
    }
  }

  // ---------------------------------------------------------------------------
  // String.prototype.includes

  predicate IsPrefix(t: string, s: string) {
    |t| <= |s| && s[..|t|] == t
  }

  /** `s.includes(t)`: t occurs in s at some position (the empty string occurs everywhere). */
  predicate Includes(s: string, t: string)
    decreases |s|
  {
    IsPrefix(t, s) || (|s| > 0 && Includes(s[1..], t))
  }

  /** t occurs in s starting at index i. */
  predicate OccursAt(s: string, t: string, i: int) {
    0 <= i && i + |t| <= |s| && s[i..i + |t|] == t
  }

  lemma {:induction false} OccursIncludes(s: string, t: string, i: int)
    requires OccursAt(s, t, i)
    ensures Includes(s, t)
    decreases i
  {
    if i == 0 {
      assert IsPrefix(t, s);
    } else {
      var rest := s[1..];
      assert rest[i - 1..i - 1 + |t|] == s[i..i + |t|];
      OccursIncludes(rest, t, i - 1);
    }
  }

  lemma {:induction false} IncludesWitness(s: string, t: string) returns (i: int)
    requires Includes(s, t)
    ensures OccursAt(s, t, i)
    decreases |s|
  {
    if IsPrefix(t, s) {
      i := 0;
    } else {
      var rest := s[1..];
      var j := IncludesWitness(rest, t);
      assert rest[j..j + |t|] == s[j + 1..j + 1 + |t|];
      i := j + 1;
    }
  }

  /** Includes, stated by its meaning: t occurs in s at some index. */
  lemma IncludesIff(s: string, t: string)
    ensures Includes(s, t) <==> exists i :: OccursAt(s, t, i)
  {
    forall i | OccursAt(s, t, i) ensures Includes(s, t) {
      OccursIncludes(s, t, i);
    }
    if Includes(s, t) {
      var i := IncludesWitness(s, t);
    }
  }

  lemma IncludesEmpty(s: string)
    ensures Includes(s, "")
  {
    assert IsPrefix("", s);
  }

  /** A string longer than s never occurs in s. */
  lemma {:induction false} IncludesTooLong(s: string, t: string)
    requires |t| > |s|
    ensures !Includes(s, t)
  {
    if |s| > 0 {
      IncludesTooLong(s[1..], t);
    }
  }

  lemma {:induction false} IncludesSelf(s: string)
    ensures Includes(s, s)
  {
    assert s[..|s|] == s;
  }

  /** `lower(s).includes(lower(t))`, the case-insensitive search of the table filters. */
  predicate ContainsIgnoreCase(s: string, t: string) {
    Includes(ToLower(s), ToLower(t))
  }

  /** A string longer than s is not found in s, whatever the case. */
  lemma ContainsIgnoreCaseTooLong(s: string, t: string)
    requires |t| > |s|
    ensures !ContainsIgnoreCase(s, t)
  {
    IncludesTooLong(ToLower(s), ToLower(t));
  }

  /** The case-insensitive search holds exactly when lower(t) occurs in lower(s) somewhere. */
  lemma ContainsIgnoreCaseIff(s: string, t: string)
    ensures ContainsIgnoreCase(s, t) ==> exists i :: OccursAt(ToLower(s), ToLower(t), i)
    ensures (exists i :: OccursAt(ToLower(s), ToLower(t), i)) ==> ContainsIgnoreCase(s, t)
  {
    if ContainsIgnoreCase(s, t) {
      var i := IncludesWitness(ToLower(s), ToLower(t));
      assert OccursAt(ToLower(s), ToLower(t), i);
    }
    forall i | OccursAt(ToLower(s), ToLower(t), i) ensures ContainsIgnoreCase(s, t) {
      OccursIncludes(ToLower(s), ToLower(t), i);
    }
  }

  /** Every string is found by searching for itself, in whatever case. */
  lemma ContainsIgnoreCaseSelf(s: string, t: string)
    requires ToLower(t) == ToLower(s)
    ensures ContainsIgnoreCase(s, t)
  {
    IncludesSelf(ToLower(s));
  }

  /** t cannot occur in s when its first character appears nowhere in s. */
  lemma {:induction false} IncludesFirstCharAbsent(s: string, t: string)
    requires |t| > 0
    requires forall i :: 0 <= i < |s| ==> s[i] != t[0]
    ensures !Includes(s, t)
  {
    if |s| > 0 {
      assert !IsPrefix(t, s) by {
        if |t| <= |s| { assert s[..|t|][0] == s[0]; }
      }
      IncludesFirstCharAbsent(s[1..], t);
    }
  }

  // ---------------------------------------------------------------------------
  // String(n) for an integer n

  function DigitChar(d: int): (c: char)
    requires 0 <= d < 10
    ensures '0' <= c <= '9' && c as int - '0' as int == d
  {
    ('0' as int + d) as char
  }

  /** Decimal rendering of a natural number without leading zeros. */
  function NatToString(n: nat): (r: string)
    ensures |r| >= 1
    ensures forall i :: 0 <= i < |r| ==> '0' <= r[i] <= '9'
    decreases n
  {
    if n < 10 then [DigitChar(n)] else NatToString(n / 10) + [DigitChar(n % 10)]
  }

  /** JavaScript's `String(n)` for an integral number n. */
  function IntToString(n: int): (r: string)
    ensures |r| >= 1
  {
    if n < 0 then "-" + NatToString(-n) else NatToString(n)
  }

  lemma {:induction false} NatToStringInjective(n: nat, m: nat)
    ensures NatToString(n) == NatToString(m) ==> n == m
    decreases n
  {
    var a, b := NatToString(n), NatToString(m);
    if n < 10 && m >= 10 {
      assert |a| == 1 && |b| >= 2;
    } else if n >= 10 && m < 10 {
      assert |a| >= 2 && |b| == 1;
    } else if n >= 10 && a == b {
      assert a[|a| - 1] == b[|b| - 1];
      assert n % 10 == m % 10;
      assert a[..|a| - 1] == NatToString(n / 10);
      assert b[..|b| - 1] == NatToString(m / 10);
      NatToStringInjective(n / 10, m / 10);
    }
  }

  /** Two integers render to the same string only when they are equal. */
  lemma IntToStringInjective(n: int, m: int)
    ensures IntToString(n) == IntToString(m) <==> n == m
  {
    var a, b := IntToString(n), IntToString(m);
    if (n < 0) != (m < 0) {
      assert (a[0] == '-') != (b[0] == '-');
    } else if n < 0 {
      if a == b {
        assert a[1..] == NatToString(-n) && b[1..] == NatToString(-m);
        NatToStringInjective(-n, -m);
      }
    } else if a == b {
      NatToStringInjective(n, m);
    }
  }

  // ---------------------------------------------------------------------------
  // parseInt(s) with no radix argument; None stands for NaN

  /** WhiteSpace and LineTerminator of section 12.2 and 12.3 of ECMA-262: the
      ASCII spaces, U+00A0, U+FEFF, U+2028, U+2029 and the space separators of
      Unicode category Zs. */
  predicate IsWhitespace(c: char) {
    c == ' ' || c == '\t' || c == '\n' || c == '\r' || c == '\U{B}' || c == '\U{C}' ||
    c == '\U{A0}' || c == '\U{1680}' || '\U{2000}' <= c <= '\U{200A}' ||
    c == '\U{2028}' || c == '\U{2029}' || c == '\U{202F}' || c == '\U{205F}' ||
    c == '\U{3000}' || c == '\U{FEFF}'
  }

  function TrimStart(s: string): (r: string)
    ensures |r| <= |s| && r == s[|s| - |r|..]
    ensures r == [] || !IsWhitespace(r[0])
  {
    if s != [] && IsWhitespace(s[0]) then TrimStart(s[1..]) else s
  }

  function DigitValue(c: char): (d: int)
    ensures -1 <= d < 16
  {
    if '0' <= c <= '9' then c as int - '0' as int
    else if 'a' <= c <= 'f' then c as int - 'a' as int + 10
    else if 'A' <= c <= 'F' then c as int - 'A' as int + 10
    else -1
  }

  predicate IsDigitIn(c: char, radix: int) {
    0 <= DigitValue(c) < radix
  }

  predicate AllDecimal(s: string) {
    forall i :: 0 <= i < |s| ==> '0' <= s[i] <= '9'
  }

  /** The longest prefix of s made of digits in the given radix. */
  function DigitPrefix(s: string, radix: int): (r: string)
    ensures IsPrefix(r, s)
    ensures forall i :: 0 <= i < |r| ==> IsDigitIn(r[i], radix)
    ensures |r| < |s| ==> !IsDigitIn(s[|r|], radix)
  {
    if s != [] && IsDigitIn(s[0], radix) then [s[0]] + DigitPrefix(s[1..], radix) else []
  }

  /** Value of a digit string read left to right. */
  function DigitsValue(ds: string, radix: nat): (v: nat)
    requires forall i :: 0 <= i < |ds| ==> IsDigitIn(ds[i], radix)
    decreases |ds|
  {
    if ds == [] then 0
    else
      var init, last := ds[..|ds| - 1], ds[|ds| - 1];
      assert forall i :: 0 <= i < |init| ==> init[i] == ds[i];
      assert IsDigitIn(last, radix);
      var high: nat := DigitsValue(init, radix);
      assert high * radix >= 0 by { NatProduct(high, radix); }
      high * radix + DigitValue(last)
  }

  lemma NatProduct(a: nat, b: nat)
    ensures a * b >= 0
  {
  }

  function Pow(b: nat, e: nat): (r: nat)
    ensures b > 0 ==> r > 0
  {
    if e == 0 then 1 else b * Pow(b, e - 1)
  }

  /** Reading a concatenation: the left digits are shifted by the length of the right ones. */
  lemma {:induction false} DigitsValueAppend(a: string, b: string, radix: nat)
    requires forall i :: 0 <= i < |a| ==> IsDigitIn(a[i], radix)
    requires forall i :: 0 <= i < |b| ==> IsDigitIn(b[i], radix)
    ensures forall i :: 0 <= i < |a + b| ==> IsDigitIn((a + b)[i], radix)
    ensures DigitsValue(a + b, radix) == DigitsValue(a, radix) * Pow(radix, |b|) + DigitsValue(b, radix)
    decreases |b|
  {
    var ab := a + b;
    assert forall i :: 0 <= i < |ab| ==> IsDigitIn(ab[i], radix) by {
      forall i | 0 <= i < |ab| ensures IsDigitIn(ab[i], radix) {
        if i < |a| { assert ab[i] == a[i]; } else { assert ab[i] == b[i - |a|]; }
      }
    }
    if b == [] {
      assert ab == a;
    } else {
      var b' := b[..|b| - 1];
      var d := b[|b| - 1];
      assert ab[..|ab| - 1] == a + b';
      assert ab[|ab| - 1] == d;
      assert IsDigitIn(d, radix);
      DigitsValueAppend(a, b', radix);
      var x, p, y := DigitsValue(a, radix), Pow(radix, |b'|), DigitsValue(b', radix);
      assert DigitsValue(ab, radix) == (x * p + y) * radix + DigitValue(d);
      assert DigitsValue(b, radix) == y * radix + DigitValue(d);
      assert Pow(radix, |b|) == radix * p;
      ShiftStep(x, p, y, radix, DigitValue(d));
    }
  }

  lemma ShiftStep(x: int, p: int, y: int, r: int, d: int)
    ensures (x * p + y) * r + d == x * (r * p) + (y * r + d)
  {
    calc {
      (x * p + y) * r + d;
      x * p * r + y * r + d;
      { assert x * p * r == x * (r * p); }
      x * (r * p) + (y * r + d);
    }
  }

  function ParseDigits(body: string, negative: bool): (r: Option<int>)
  {
    var hex := |body| >= 2 && body[0] == '0' && (body[1] == 'x' || body[1] == 'X');
    var radix: nat := if hex then 16 else 10;
    var ds := DigitPrefix(if hex then body[2..] else body, radix);
    if ds == [] then None
    else
      var v: int := DigitsValue(ds, radix);
      Some(if negative then -v else v)
  }

  /** `parseInt(s)`: leading white space, an optional sign, an optional `0x` prefix,
      then the longest run of digits; NaN (None) when there is no digit. */
  function ParseInt(s: string): (r: Option<int>)
  {
    var t := TrimStart(s);
    if t != [] && t[0] == '-' then ParseDigits(t[1..], true)
    else if t != [] && t[0] == '+' then ParseDigits(t[1..], false)
    else ParseDigits(t, false)
  }

  lemma {:induction false} DecimalDigitPrefix(ds: string)
    requires AllDecimal(ds)
    ensures DigitPrefix(ds, 10) == ds
  {
    if ds != [] {
      assert IsDigitIn(ds[0], 10);
      DecimalDigitPrefix(ds[1..]);
      assert [ds[0]] + ds[1..] == ds;
    }
  }

  /** A non-empty run of decimal digits parses to its decimal value. */
  lemma ParseIntDecimal(ds: string)
    requires |ds| > 0 && AllDecimal(ds)
    ensures ParseInt(ds) == Some(DigitsValue(ds, 10))
  {
    assert !IsWhitespace(ds[0]);
    assert TrimStart(ds) == ds;
    assert ds[0] != '-' && ds[0] != '+';
    assert !(|ds| >= 2 && (ds[1] == 'x' || ds[1] == 'X'));
    DecimalDigitPrefix(ds);
    assert ParseInt(ds) == ParseDigits(ds, false);
  }

  /** A string whose first character is not white space, a sign or a digit parses to NaN. */
  lemma ParseIntNoDigit(s: string)
    requires s == [] || (!IsWhitespace(s[0]) && s[0] != '-' && s[0] != '+' && !('0' <= s[0] <= '9'))
    ensures ParseInt(s) == None
  {
  }

  /** `parseInt(value) || 0`: NaN and zero both give 0. */
  function ParseIntOrZero(value: string): int {
    match ParseInt(value)
    case None => 0
    case Some(v) => v
  }

  /** A run of decimal digits gives its value; text that does not start
      with white space, a sign or a digit gives 0. */
  lemma ParseIntOrZeroMeaning(ds: string, junk: string)
    requires |ds| > 0 && AllDecimal(ds)
    requires junk == [] || (!IsWhitespace(junk[0]) && junk[0] != '-' && junk[0] != '+' && !('0' <= junk[0] <= '9'))
    ensures ParseIntOrZero(ds) == DigitsValue(ds, 10)
    ensures ParseIntOrZero(junk) == 0
  {
    ParseIntDecimal(ds);
    ParseIntNoDigit(junk);
  }


  // ---------------------------------------------------------------------------
  // String.prototype.split(".")

  function CountChar(s: string, c: char): nat {
    if s == [] then 0 else (if s[0] == c then 1 else 0) + CountChar(s[1..], c)
  }

  /** `s.split(".")`: the pieces between the dots, in order. */
  function SplitDots(s: string): (parts: seq<string>)
    ensures |parts| == CountChar(s, '.') + 1
  {
    if s == [] then [""]
    else if s[0] == '.' then [""] + SplitDots(s[1..])
    else
      var rest := SplitDots(s[1..]);
      [[s[0]] + rest[0]] + rest[1..]
  }

  /** Joining pieces with dots and splitting again gives the pieces back. */
  lemma {:induction false} SplitDotFree(a: string)
    requires CountChar(a, '.') == 0
    ensures SplitDots(a) == [a]
  {
    if a != [] {
      SplitDotFree(a[1..]);
      assert [a[0]] + a[1..] == a;
    }
  }

  lemma {:induction false} SplitPrefix(a: string, rest: string)
    requires CountChar(a, '.') == 0
    ensures SplitDots(a + "." + rest) == [a] + SplitDots(rest)
  {
    if a == [] {
      assert a + "." + rest == "." + rest;
      assert ("." + rest)[1..] == rest;
    } else {
      assert (a + "." + rest)[1..] == a[1..] + "." + rest;
      SplitPrefix(a[1..], rest);
      assert [a[0]] + a[1..] == a;
    }
  }

  lemma SplitThree(a: string, b: string, c: string)
    requires CountChar(a, '.') == 0 && CountChar(b, '.') == 0 && CountChar(c, '.') == 0
    ensures SplitDots(a + "." + b + "." + c) == [a, b, c]
  {
    assert a + "." + b + "." + c == a + "." + (b + "." + c);
    SplitPrefix(a, b + "." + c);
    SplitPrefix(b, c);
    SplitDotFree(c);
  }
}
