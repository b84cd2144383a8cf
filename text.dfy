/**
  * Character classes and the C library's number conversions (atoi, atof)
  * as the SFZ loaders and the command-line parsers use them.
  */
module Text {

  datatype Option<T> = None | Some(value: T)

  /** isspace in the C locale: space, tab, newline, vertical tab, form feed, carriage return. */
  predicate IsSpace(c: char)
  {
    c == ' ' || c == '\t' || c == '\n' || c == '\U{000B}' || c == '\U{000C}' || c == '\r'
  }

  predicate IsDigit(c: char)
  {
    '0' <= c <= '9'
  }

  predicate AllDigits(s: string)
  {
    forall i :: 0 <= i < |s| ==> IsDigit(s[i])
  }

  function DigitValue(c: char): nat
    requires IsDigit(c)
  {
    c as int - '0' as int
  }

  function DigitChar(d: nat): (c: char)
    requires d < 10
    ensures IsDigit(c) && DigitValue(c) == d
  {
    ('0' as int + d) as char
  }

  /** The input with its leading white space removed. */
  function SkipSpaces(s: string): (r: string)
    ensures |r| <= |s|
  {
    if |s| > 0 && IsSpace(s[0]) then SkipSpaces(s[1..]) else s
  }

  /** SkipSpaces removes the white space at the front and nothing else. */
  lemma {:induction false} SkipSpacesDropsOnlySpaces(s: string)
    ensures SkipSpaces(s) == s[|s| - |SkipSpaces(s)|..]
    ensures forall i :: 0 <= i < |s| - |SkipSpaces(s)| ==> IsSpace(s[i])
    ensures |SkipSpaces(s)| > 0 ==> !IsSpace(SkipSpaces(s)[0])
  {
    if |s| > 0 && IsSpace(s[0]) {
      SkipSpacesDropsOnlySpaces(s[1..]);
    }
  }

  /** The longest run of digits at the start of the input. */
  function LeadingDigits(s: string): (r: string)
    ensures r <= s && AllDigits(r)
    ensures |r| < |s| ==> !IsDigit(s[|r|])
  {
    if |s| > 0 && IsDigit(s[0]) then [s[0]] + LeadingDigits(s[1..]) else []
  }

  /** The value of a decimal digit string, most significant digit first. */
  function DecimalValue(d: string): nat
    requires AllDigits(d)
  {
    if d == [] then 0 else DecimalValue(d[..|d| - 1]) * 10 + DigitValue(d[|d| - 1])
  }

  /**
    * atoi: leading white space is skipped, one optional sign is read, then
    * the longest run of decimal digits; anything after it is ignored, and no
    * digits at all gives 0. The C function's behaviour on overflow is
    * undefined; the model's integers are unbounded.
    */
  function Atoi(s: string): int
  {
    var t := SkipSpaces(s);
    if |t| > 0 && t[0] == '-' then 0 - DecimalValue(LeadingDigits(t[1..]))
    else if |t| > 0 && t[0] == '+' then DecimalValue(LeadingDigits(t[1..]))
    else DecimalValue(LeadingDigits(t))
  }

  /** The fractional digits after a decimal point, as a value in [0, 1). */
  function FractionValue(d: string): real
    requires AllDigits(d)
  {
    if d == [] then 0.0 else (DigitValue(d[0]) as real + FractionValue(d[1..])) / 10.0
  }

  lemma {:induction false} FractionValueBounds(d: string)
    requires AllDigits(d)
    ensures 0.0 <= FractionValue(d) < 1.0
  {
    if d != [] {
      FractionValueBounds(d[1..]);
    }
  }

  /** m with its decimal point moved k places: m times 10 to the k, for an exponent of either sign. */
  function Scaled(m: real, k: int): real
    decreases if k < 0 then -k else k
  {
    if k == 0 then m else if k > 0 then Scaled(10.0 * m, k - 1) else Scaled(m / 10.0, k + 1)
  }

  /**
    * The decimal exponent at the start of e: 'e' or 'E', an optional sign
    * and at least one digit. Anything else is not part of the number and
    * counts as exponent 0.
    */
  function Exponent(e: string): int
  {
    if |e| > 0 && (e[0] == 'e' || e[0] == 'E') then
      var negative := |e| > 1 && e[1] == '-';
      var u := if |e| > 1 && (e[1] == '-' || e[1] == '+') then e[2..] else e[1..];
      var n: int := DecimalValue(LeadingDigits(u));
      if negative then -n else n
    else 0
  }

  /**
    * atof for decimal notation: white space, an optional sign, integer
    * digits, an optional '.' followed by fraction digits, and an optional
    * exponent. With no digits at all the value is 0.
    */
  function Atof(s: string): real
  {
    var t := SkipSpaces(s);
    var negative := |t| > 0 && t[0] == '-';
    var u := if |t| > 0 && (t[0] == '-' || t[0] == '+') then t[1..] else t;
    var whole := LeadingDigits(u);
    var rest := u[|whole|..];
    var frac := if |rest| > 0 && rest[0] == '.' then LeadingDigits(rest[1..]) else [];
    var after := if |rest| > 0 && rest[0] == '.' then rest[1 + |frac|..] else rest;
    var magnitude := Scaled(DecimalValue(whole) as real + FractionValue(frac), Exponent(after));
    if negative then -magnitude else magnitude
  }

  /** The decimal spelling of a natural number, without leading zeros. */
  function NatToDigits(n: nat): (r: string)
    ensures |r| > 0 && AllDigits(r)
    decreases n
  {
    if n < 10 then [DigitChar(n)] else NatToDigits(n / 10) + [DigitChar(n % 10)]
  }

  lemma {:induction false} DecimalValueOfDigits(n: nat)
    ensures DecimalValue(NatToDigits(n)) == n
    decreases n
  {
    if n >= 10 {
      var d := NatToDigits(n);
      assert d[..|d| - 1] == NatToDigits(n / 10);
      DecimalValueOfDigits(n / 10);
    }
  }

  lemma {:induction false} LeadingDigitsOfDigits(s: string)
    requires AllDigits(s)
    ensures LeadingDigits(s) == s
  {
    if |s| > 0 {
      LeadingDigitsOfDigits(s[1..]);
    }
  }

  lemma SkipSpacesOfNonSpace(s: string)
    requires |s| > 0 && !IsSpace(s[0])
    ensures SkipSpaces(s) == s
  {
  }

  /** On a non-empty digit string atoi gives its decimal value. */
  lemma AtoiOfDigitString(s: string)
    requires |s| > 0 && AllDigits(s)
    ensures Atoi(s) == DecimalValue(s)
  {
    assert IsDigit(s[0]);
    SkipSpacesOfNonSpace(s);
    LeadingDigitsOfDigits(s);
  }

  /** On a non-empty digit string atof gives its decimal value. */
  lemma AtofOfDigitString(s: string)
    requires |s| > 0 && AllDigits(s)
    ensures Atof(s) == DecimalValue(s) as real
  {
    assert IsDigit(s[0]);
    SkipSpacesOfNonSpace(s);
    LeadingDigitsOfDigits(s);
    var rest := s[|s|..];
    assert rest == [];
    var frac: string := [];
    assert FractionValue(frac) == 0.0;
    assert Exponent(rest) == 0;
  }

  /** The digits at the front of a digit string followed by a non-digit are that digit string. */
  lemma {:induction false} LeadingDigitsStop(w: string, x: string)
    requires AllDigits(w) && (|x| == 0 || !IsDigit(x[0]))
    ensures LeadingDigits(w + x) == w
  {
    if |w| > 0 {
      assert (w + x)[1..] == w[1..] + x;
      LeadingDigitsStop(w[1..], x);
    }
  }

  /** atof reads "w.f" as the integer part w plus the fraction digits f. */
  lemma AtofOfDecimal(w: string, f: string)
    requires |w| > 0 && AllDigits(w) && AllDigits(f)
    ensures Atof(w + "." + f) == DecimalValue(w) as real + FractionValue(f)
  {
    var s := w + "." + f;
    assert IsDigit(s[0]);
    SkipSpacesOfNonSpace(s);
    assert s == w + ("." + f);
    LeadingDigitsStop(w, "." + f);
    assert s[|w|..] == "." + f && ("." + f)[1..] == f;
    LeadingDigitsOfDigits(f);
    assert ("." + f)[1 + |f|..] == [];
  }

  /** An integer part followed by anything but a digit or '.' is scaled by the exponent that follows it. */
  lemma AtofOfMantissa(w: string, x: string)
    requires |w| > 0 && AllDigits(w) && |x| > 0 && !IsDigit(x[0]) && x[0] != '.'
    ensures Atof(w + x) == Scaled(DecimalValue(w) as real, Exponent(x))
  {
    var s := w + x;
    assert IsDigit(s[0]);
    SkipSpacesOfNonSpace(s);
    LeadingDigitsStop(w, x);
    assert s[|w|..] == x;
    assert FractionValue([]) == 0.0;
  }

  /** The exponent "en" is n. */
  lemma ExponentOf(n: nat)
    ensures Exponent("e" + NatToDigits(n)) == n
  {
    var d := NatToDigits(n);
    assert ("e" + d)[1..] == d && IsDigit(d[0]);
    LeadingDigitsOfDigits(d);
    DecimalValueOfDigits(n);
  }

  /** The exponent "e-n" is minus n. */
  lemma NegativeExponentOf(n: nat)
    ensures Exponent("e-" + NatToDigits(n)) == -(n as int)
  {
    var d := NatToDigits(n);
    assert ("e-" + d)[2..] == d;
    LeadingDigitsOfDigits(d);
    DecimalValueOfDigits(n);
  }

  /** atof reads "wen" as w times 10 to the n. */
  lemma AtofOfExponent(w: string, n: nat)
    requires |w| > 0 && AllDigits(w)
    ensures Atof(w + "e" + NatToDigits(n)) == Scaled(DecimalValue(w) as real, n)
  {
    ConcatAssoc(w, "e", NatToDigits(n));
    AtofOfMantissa(w, "e" + NatToDigits(n));
    ExponentOf(n);
  }

  /** atof reads "we-n" as w times 10 to the minus n. */
  lemma AtofOfNegativeExponent(w: string, n: nat)
    requires |w| > 0 && AllDigits(w)
    ensures Atof(w + "e-" + NatToDigits(n)) == Scaled(DecimalValue(w) as real, -(n as int))
  {
    ConcatAssoc(w, "e-", NatToDigits(n));
    AtofOfMantissa(w, "e-" + NatToDigits(n));
    NegativeExponentOf(n);
  }

  lemma ConcatAssoc<T>(a: seq<T>, b: seq<T>, c: seq<T>)
    ensures a + b + c == a + (b + c)
  {
  }

  /** The spelling "1e1" is ten, not one. */
  lemma AtofOfOneEOne()
    ensures Atof("1e1") == 10.0
  {
    assert NatToDigits(1) == "1";
    AtofOfExponent("1", 1);
    assert "1" + "e" + "1" == "1e1";
    assert DecimalValue("1") == 1 by { assert "1"[..0] == []; }
    assert Scaled(1.0, 1) == Scaled(10.0, 0);
  }

  /** A minus sign before a digit string negates its value. */
  lemma AtoiOfNegativeDigitString(s: string)
    requires AllDigits(s)
    ensures Atoi(['-'] + s) == 0 - DecimalValue(s)
  {
    var t := ['-'] + s;
    SkipSpacesOfNonSpace(t);
    assert t[1..] == s;
    LeadingDigitsOfDigits(s);
  }

  /** atoi reads back every number written in decimal. */
  lemma AtoiOfDigits(n: nat)
    ensures Atoi(NatToDigits(n)) == n
  {
    AtoiOfDigitString(NatToDigits(n));
    DecimalValueOfDigits(n);
  }

  /** A leading minus sign negates what atoi reads. */
  lemma AtoiOfNegative(n: nat)
    ensures Atoi("-" + NatToDigits(n)) == 0 - n
  {
    AtoiOfNegativeDigitString(NatToDigits(n));
    DecimalValueOfDigits(n);
  }

  /** atof agrees with atoi on decimal integers. */
  lemma AtofOfDigits(n: nat)
    ensures Atof(NatToDigits(n)) == n as real
  {
    AtofOfDigitString(NatToDigits(n));
    DecimalValueOfDigits(n);
  }
}
