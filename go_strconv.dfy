/** The value part of Go's strconv.Atoi, which t-plot uses to read a field as a
    decimal integer, and strconv.Itoa, its inverse. Go's `int` is taken to be
    64 bits wide. */
module GoStrconv {
  import opened Wrappers

  const MinInt: int := -0x8000_0000_0000_0000
  const MaxInt: int := 0x7FFF_FFFF_FFFF_FFFF
  const MaxUint64: int := 0xFFFF_FFFF_FFFF_FFFF

  predicate IsDigit(c: char) {
    '0' <= c <= '9'
  }

  predicate AllDigits(s: string) {
    forall k :: 0 <= k < |s| ==> IsDigit(s[k])
  }

  /** The value of a string of decimal digits, read most significant first. */
  function DigitsValue(s: string): nat
    requires AllDigits(s)
  {
    if s == [] then 0 else DigitsValue(s[..|s| - 1]) * 10 + (s[|s| - 1] as int - '0' as int)
  }

  /** The exact syntax strconv.Atoi accepts without error: an optional '+' or
      '-' followed by one or more ASCII digits, and nothing else (no spaces,
      no underscores). The result is the exact value, before any range check. */
  function ParseDecimal(s: string): (r: Option<int>)
    ensures r.Some? <==>
      |s| > 0 && (IsDigit(s[0]) || ((s[0] == '+' || s[0] == '-') && |s| >= 2)) &&
      forall k :: 0 < k < |s| ==> IsDigit(s[k])
    ensures r.Some? ==> |s| > 0 && forall k :: 0 < k < |s| ==> IsDigit(s[k])
    ensures r.Some? && r.value < 0 ==> s[0] == '-'
    ensures r.Some? && !IsDigit(s[0]) ==> |s| >= 2
  {
    if |s| == 0 then None
    else
      var digits := if s[0] == '-' || s[0] == '+' then s[1..] else s;
      if |digits| == 0 || !AllDigits(digits) then None
      else
        var v: int := DigitsValue(digits);
        Some(if s[0] == '-' then -v else v)
  }

  /** A leading zero does not change the value of a digit string. */
  lemma {:induction false} DigitsValueLeadingZero(d: string)
    requires AllDigits(d)
    ensures DigitsValue("0" + d) == DigitsValue(d)
  {
    if d != [] {
      var z := "0" + d;
      assert z[..|z| - 1] == "0" + d[..|d| - 1];
      DigitsValueLeadingZero(d[..|d| - 1]);
    }
  }

  /** Appending digits never lowers the value. */
  lemma {:induction false} DigitsValueOfExtension(a: string, b: string)
    requires AllDigits(a) && AllDigits(b)
    ensures AllDigits(a + b) && DigitsValue(a) <= DigitsValue(a + b)
  {
    if b != [] {
      var ab := a + b;
      assert ab[..|ab| - 1] == a + b[..|b| - 1];
      DigitsValueOfExtension(a, b[..|b| - 1]);
    } else {
      assert a + b == a;
    }
  }

  /** A string of digits reads as its value. */
  lemma ParseDecimalOfDigits(d: string)
    requires |d| > 0 && AllDigits(d)
    ensures ParseDecimal(d) == Some(DigitsValue(d) as int)
  {
  }

  /** A '+' sign keeps the value. */
  lemma ParseDecimalOfPlus(d: string)
    requires |d| > 0 && AllDigits(d)
    ensures ParseDecimal("+" + d) == Some(DigitsValue(d) as int)
  {
    assert ("+" + d)[1..] == d;
  }

  /** A '-' sign negates the value. */
  lemma ParseDecimalOfMinus(d: string)
    requires |d| > 0 && AllDigits(d)
    ensures ParseDecimal("-" + d) == Some(-(DigitsValue(d) as int))
  {
    assert ("-" + d)[1..] == d;
  }

  /** A leading zero keeps the value. */
  lemma ParseDecimalOfLeadingZero(d: string)
    requires |d| > 0 && AllDigits(d)
    ensures ParseDecimal("0" + d) == Some(DigitsValue(d) as int)
  {
    var z := "0" + d;
    assert AllDigits(z) by {
      forall k | 0 <= k < |z| ensures IsDigit(z[k]) {
        if k > 0 { assert z[k] == d[k - 1]; }
      }
    }
    DigitsValueLeadingZero(d);
  }

  /** The part of `s` after an optional leading '+' or '-' sign, which
      strconv.ParseInt hands to strconv.ParseUint. */
  function Magnitude(s: string): (t: string)
    ensures |t| <= |s| <= |t| + 1
    ensures |t| < |s| <==> |s| > 0 && (s[0] == '+' || s[0] == '-')
    ensures t == s[|s| - |t|..]
  {
    if |s| > 0 && (s[0] == '+' || s[0] == '-') then s[1..] else s
  }

  /** The length of the longest prefix of `t` made of ASCII digits. */
  function DigitRun(t: string): (n: nat)
    ensures n <= |t| && AllDigits(t[..n])
    ensures n < |t| ==> !IsDigit(t[n])
  {
    if t == [] || !IsDigit(t[0]) then 0
    else
      var m := DigitRun(t[1..]);
      assert t[..1 + m] == [t[0]] + t[1..][..m];
      1 + m
  }

  /** The outcome of strconv.ParseUint in base 10 with 64 bits: a value, a
      syntax error or a range error. */
  datatype UintResult = UintOk(value: nat) | UintSyntax | UintRange

  /** The digit loop of strconv.ParseUint: `n` is the value read so far. A
      non-digit is a syntax error. A digit that takes the value above 2^64 - 1
      is a range error, returned at once, before any later character is read. */
  function ScanUint(t: string, n: nat): (r: UintResult)
    ensures r.UintOk? ==> AllDigits(t) && n <= r.value
    ensures r.UintOk? && n <= MaxUint64 ==> r.value <= MaxUint64
    decreases |t|
  {
    if t == [] then UintOk(n)
    else if !IsDigit(t[0]) then UintSyntax
    else
      var d := t[0] as int - '0' as int;
      if n >= MaxUint64 / 10 + 1 then UintRange
      else if n * 10 + d > MaxUint64 then UintRange
      else ScanUint(t[1..], n * 10 + d)
  }

  /** strconv.ParseUint(t, 10, 64), up to the error value. */
  function ParseUint(t: string): (r: UintResult)
    ensures r.UintOk? ==> |t| > 0 && AllDigits(t) && r.value <= MaxUint64
  {
    if t == [] then UintSyntax else ScanUint(t, 0)
  }

  /** The outcome of the digit loop, started after the digits `q`, stated
      without the loop: a range error when the digits read before the first
      non-digit are worth more than 2^64 - 1, otherwise a syntax error at a
      non-digit, otherwise the value of all the digits. */
  lemma {:induction false} ScanUintOutcome(q: string, t: string)
    requires AllDigits(q) && DigitsValue(q) <= MaxUint64
    ensures AllDigits(q + t[..DigitRun(t)])
    ensures ScanUint(t, DigitsValue(q)) ==
      if DigitsValue(q + t[..DigitRun(t)]) > MaxUint64 then UintRange
      else if DigitRun(t) < |t| then UintSyntax
      else UintOk(DigitsValue(q + t))
    decreases |t|
  {
    var r := DigitRun(t);
    DigitsValueOfExtension(q, t[..r]);
    if t == [] || !IsDigit(t[0]) {
      assert q + t[..r] == q;
    } else {
      var q1 := q + [t[0]];
      var t1 := t[1..];
      ShiftDigit(q, t);
      DigitsValueOfExtension(q1, t1[..DigitRun(t1)]);
      if DigitsValue(q1) <= MaxUint64 {
        ScanUintOutcome(q1, t1);
      }
    }
  }

  /** Moving the first digit of `t` to the end of `q`. */
  lemma ShiftDigit(q: string, t: string)
    requires AllDigits(q) && t != [] && IsDigit(t[0])
    ensures AllDigits(q + [t[0]])
    ensures DigitsValue(q + [t[0]]) == DigitsValue(q) * 10 + (t[0] as int - '0' as int)
    ensures q + t[..DigitRun(t)] == (q + [t[0]]) + t[1..][..DigitRun(t[1..])]
    ensures q + t == (q + [t[0]]) + t[1..]
  {
    var q1 := q + [t[0]];
    assert q1[..|q1| - 1] == q;
    var t1 := t[1..];
    var r1 := DigitRun(t1);
    assert DigitRun(t) == 1 + r1;
    assert t[..1 + r1] == [t[0]] + t1[..r1];
    assert q1 + t1[..r1] == q + ([t[0]] + t1[..r1]);
    assert t == [t[0]] + t1;
    assert q1 + t1 == q + ([t[0]] + t1);
  }

  /** Go's ParseUint stops at the first digit that overflows. Since the value
      read so far never decreases, this happens exactly when the leading run
      of digits after the sign is worth more than 2^64 - 1, whatever follows. */
  predicate Overflows(s: string) {
    var t := Magnitude(s);
    DigitsValue(t[..DigitRun(t)]) > MaxUint64
  }

  /** The value strconv.Atoi returns, i.e. strconv.ParseInt(s, 10, 0) on a
      64-bit platform (Atoi's fast path for strings shorter than 19 bytes
      cannot overflow and gives the same value). A syntax error gives 0. A
      range error gives the bound of the sign: either the digits after the
      sign overflow 64 bits before the first non-digit, whatever follows, or
      the whole number is a valid decimal outside the 64-bit range. The error
      itself is not modelled, because t-plot discards it. */
  function Atoi(s: string): (n: int)
    ensures MinInt <= n <= MaxInt
  {
    if |s| == 0 then 0
    else
      var neg := s[0] == '-';
      match ParseUint(Magnitude(s))
      case UintSyntax => 0
      case UintRange => if neg then MinInt else MaxInt
      case UintOk(un) =>
        if !neg && un > MaxInt then MaxInt
        else if neg && un > -MinInt then MinInt
        else
          var v: int := un;
          if neg then -v else v
  }

  /** The value of Atoi in terms of the syntax: the bound of the sign when
      the leading digits overflow 64 bits, whatever follows; otherwise 0 on a
      syntax error; the exact value of a well-formed field when it is in
      range, otherwise the nearest bound. */
  lemma AtoiValue(s: string)
    ensures Overflows(s) ==> |s| > 0 && Atoi(s) == (if s[0] == '-' then MinInt else MaxInt)
    ensures !Overflows(s) && ParseDecimal(s).None? ==> Atoi(s) == 0
    ensures ParseDecimal(s).Some? && MinInt <= ParseDecimal(s).value <= MaxInt ==> Atoi(s) == ParseDecimal(s).value
    ensures ParseDecimal(s).Some? && ParseDecimal(s).value > MaxInt ==> Atoi(s) == MaxInt
    ensures ParseDecimal(s).Some? && ParseDecimal(s).value < MinInt ==> Atoi(s) == MinInt
  {
    ParseUintOfMagnitude(s);
  }

  /** What ParseUint makes of the part after the sign, in terms of the syntax
      and of the leading digit run. */
  lemma ParseUintOfMagnitude(s: string)
    ensures Overflows(s) ==> |s| > 0 && ParseUint(Magnitude(s)) == UintRange
    ensures !Overflows(s) && ParseDecimal(s).None? ==> ParseUint(Magnitude(s)) == UintSyntax
    ensures ParseDecimal(s).Some? ==>
      var v := ParseDecimal(s).value;
      var un := if s[0] == '-' then -v else v;
      un >= 0 &&
      (Overflows(s) <==> un > MaxUint64) &&
      (!Overflows(s) ==> ParseUint(Magnitude(s)) == UintOk(un))
  {
    var t := Magnitude(s);
    assert t[..|t|] == t;
    ScanUintOutcome("", t);
    assert "" + t[..DigitRun(t)] == t[..DigitRun(t)];
    assert "" + t == t;
    if |s| > 0 && |t| > 0 && DigitRun(t) == |t| {
      assert AllDigits(t);
    }
  }

  /** A run of digits at the front is part of the leading digit run. */
  lemma {:induction false} DigitRunOfDigits(d: string, rest: string)
    requires AllDigits(d)
    ensures DigitRun(d + rest) >= |d|
  {
    if d != [] {
      assert (d + rest)[1..] == d[1..] + rest;
      DigitRunOfDigits(d[1..], rest);
    }
  }

  /** The leading digit run of `d + rest` is worth at least the digits `d`. */
  lemma LeadingRunOfDigits(d: string, rest: string)
    requires AllDigits(d)
    ensures var t := d + rest; DigitsValue(d) <= DigitsValue(t[..DigitRun(t)])
  {
    var t := d + rest;
    DigitRunOfDigits(d, rest);
    var r := DigitRun(t);
    assert t[..r] == d + t[..r][|d|..];
    DigitsValueOfExtension(d, t[..r][|d|..]);
  }

  /** Once the digits after the sign overflow 64 bits, nothing that follows
      changes the result: "18446744073709551616x" reads as the largest int,
      though it is not a number. */
  lemma AtoiOfOverflowingDigits(d: string, rest: string)
    requires AllDigits(d) && DigitsValue(d) > MaxUint64
    ensures Atoi(d + rest) == MaxInt
    ensures Atoi("+" + (d + rest)) == MaxInt
    ensures Atoi("-" + (d + rest)) == MinInt
  {
    var t := d + rest;
    OverflowingDigitsWithSign(d, rest);
    AtoiValue(t);
    AtoiValue("+" + t);
    AtoiValue("-" + t);
  }

  /** Digits worth more than 2^64 - 1 overflow with or without a sign. */
  lemma OverflowingDigitsWithSign(d: string, rest: string)
    requires AllDigits(d) && DigitsValue(d) > MaxUint64
    ensures Overflows(d + rest)
    ensures Overflows("+" + (d + rest)) && Overflows("-" + (d + rest))
  {
    OverflowingDigits(d, rest);
    OverflowsWithSign(d + rest);
  }

  lemma OverflowingDigits(d: string, rest: string)
    requires AllDigits(d) && DigitsValue(d) > MaxUint64
    ensures Overflows(d + rest)
  {
    var t := d + rest;
    assert t[0] == d[0];
    UnsignedMagnitude(t);
    LeadingRunOfDigits(d, rest);
  }

  /** A string that starts with a digit has no sign to strip. */
  lemma UnsignedMagnitude(t: string)
    requires |t| > 0 && IsDigit(t[0])
    ensures Magnitude(t) == t
  {
  }

  /** A sign in front of a string without one does not change whether it
      overflows. */
  lemma OverflowsWithSign(t: string)
    requires |t| > 0 && IsDigit(t[0])
    ensures Overflows("+" + t) == Overflows(t) && Overflows("-" + t) == Overflows(t)
  {
    assert ("+" + t)[1..] == t;
    assert ("-" + t)[1..] == t;
    assert Magnitude(t) == t;
  }

  function DigitChar(d: nat): (c: char)
    requires d < 10
    ensures IsDigit(c) && c as int - '0' as int == d
  {
    ('0' as int + d) as char
  }

  /** The decimal digits of `n`, with no leading zero. */
  function NatDigits(n: nat): (s: string)
    ensures |s| > 0 && AllDigits(s)
  {
    if n < 10 then [DigitChar(n)] else NatDigits(n / 10) + [DigitChar(n % 10)]
  }

  /** strconv.Itoa. */
  function Itoa(n: int): string {
    if n < 0 then "-" + NatDigits(-n) else NatDigits(n)
  }

  lemma {:induction false} DigitsValueOfNatDigits(n: nat)
    ensures DigitsValue(NatDigits(n)) == n
  {
    var s := NatDigits(n);
    if n < 10 {
      assert s[..|s| - 1] == [];
    } else {
      assert s[..|s| - 1] == NatDigits(n / 10);
      DigitsValueOfNatDigits(n / 10);
    }
  }

  /** Round trip: ParseDecimal reads back exactly the integer Itoa wrote. */
  lemma ParseDecimalOfItoa(n: int)
    ensures ParseDecimal(Itoa(n)) == Some(n)
  {
    if n < 0 {
      DigitsValueOfNatDigits(-n);
      ParseDecimalOfMinus(NatDigits(-n));
    } else {
      DigitsValueOfNatDigits(n);
      ParseDecimalOfDigits(NatDigits(n));
    }
  }

  /** Round trip: in the range of a 64-bit int, Atoi reads back what Itoa wrote. */
  lemma AtoiOfItoa(n: int)
    requires MinInt <= n <= MaxInt
    ensures Atoi(Itoa(n)) == n
  {
    ParseDecimalOfItoa(n);
    AtoiValue(Itoa(n));
  }
}
