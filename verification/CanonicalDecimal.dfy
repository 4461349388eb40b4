/** Canonical printing of finite decimals: no exponent, no insignificant zeros, no signed zero. */
module CanonicalDecimal {
  import opened Prelude

  /** A decimal is a sign, a coefficient and a power of ten, or not finite. */
  datatype Decimal = Finite(negative: bool, coefficient: nat, exponent: int) | NotFinite

  function Power(n: nat): nat { if n == 0 then 1 else 10 * Power(n - 1) }

  lemma {:induction false} PowerPositive(n: nat)
    ensures 0 < Power(n)
  {
    if n > 0 { PowerPositive(n - 1); }
  }

  /** Ten to the given, possibly negative, power. */
  function Scale(e: int): real {
    if 0 <= e then Power(e) as real
    else
      PowerPositive(-e);
      1.0 / Power(-e) as real
  }

  lemma ScaleStep(e: int)
    ensures Scale(e + 1) == 10.0 * Scale(e) && 0.0 < Scale(e)
  {
    if 0 <= e {
      PowerPositive(e);
    } else {
      PowerPositive(-e);
      PowerPositive(-e - 1);
      DivPositive(1.0, Power(-e) as real);
      TenTimesInverse(Power(-e - 1));
    }
  }

  lemma TenTimesInverse(p: nat)
    requires 0 < p
    ensures 1.0 / p as real == 10.0 * (1.0 / (10 * p) as real)
  {
    var n := p as real;
    var q := 1.0 / (10.0 * n);
    DivMul(1.0, 10.0 * n);
    assert 10.0 * q * n == 1.0;
    DivOfMul(10.0 * q, n);
    assert (10 * p) as real == 10.0 * n;
  }

  function Times(c: nat, s: real): real { c as real * s }

  /** The number a finite decimal stands for. */
  function Value(d: Decimal): real
    requires d.Finite?
  {
    var magnitude := Times(d.coefficient, Scale(d.exponent));
    if d.negative then -magnitude else magnitude
  }

  // ----- digits -----

  function Digit(n: nat): char
    requires n < 10
  {
    '0' + n as char
  }

  function Digits(n: nat): string {
    if n < 10 then [Digit(n)] else Digits(n / 10) + [Digit(n % 10)]
  }

  function Zeros(n: nat): string { if n == 0 then "" else Zeros(n - 1) + "0" }

  predicate AllDigits(s: string) { forall i :: 0 <= i < |s| ==> '0' <= s[i] <= '9' }

  function ReadDigits(s: string): nat
    requires AllDigits(s)
  {
    if s == "" then 0 else 10 * ReadDigits(s[..|s| - 1]) + (s[|s| - 1] - '0') as nat
  }

  lemma ReadOneMore(s: string, c: char)
    requires AllDigits(s) && '0' <= c <= '9'
    ensures AllDigits(s + [c]) && ReadDigits(s + [c]) == 10 * ReadDigits(s) + (c - '0') as nat
  {
    assert (s + [c])[..|s|] == s;
  }

  lemma {:induction false} DigitsRead(n: nat)
    ensures AllDigits(Digits(n)) && ReadDigits(Digits(n)) == n && 1 <= |Digits(n)|
  {
    if n < 10 {
      ReadOneMore("", Digit(n));
      assert "" + [Digit(n)] == [Digit(n)];
    } else {
      DigitsRead(n / 10);
      ReadOneMore(Digits(n / 10), Digit(n % 10));
    }
  }

  lemma {:induction false} ZerosAreDigits(n: nat)
    ensures |Zeros(n)| == n && AllDigits(Zeros(n))
  {
    if n > 0 { ZerosAreDigits(n - 1); }
  }

  lemma {:induction false} LeadingZeros(n: nat, s: string)
    requires AllDigits(s)
    ensures AllDigits(Zeros(n) + s) && ReadDigits(Zeros(n) + s) == ReadDigits(s)
    decreases |s|, n
  {
    ZerosAreDigits(n);
    if s == "" {
      assert Zeros(n) + s == Zeros(n);
      if n > 0 {
        LeadingZeros(n - 1, "");
        assert Zeros(n - 1) + "" == Zeros(n - 1);
        ReadOneMore(Zeros(n - 1), '0');
      }
    } else {
      var m := |s| - 1;
      LeadingZeros(n, s[..m]);
      ReadOneMore(Zeros(n) + s[..m], s[m]);
      assert Zeros(n) + s == Zeros(n) + s[..m] + [s[m]];
    }
  }

  lemma TenAside(r: nat, p: nat, q: nat)
    requires q == 10 * p
    ensures 10 * (r * p) == r * q
  {}

  function Shifted(r: nat, n: nat): nat { if n == 0 then r else 10 * Shifted(r, n - 1) }

  lemma {:induction false} ShiftedIsProduct(r: nat, n: nat)
    ensures Shifted(r, n) == r * Power(n)
  {
    if n > 0 {
      ShiftedIsProduct(r, n - 1);
      TenAside(r, Power(n - 1), Power(n));
    }
  }

  lemma {:induction false} TrailingZeros(s: string, n: nat)
    requires AllDigits(s)
    ensures AllDigits(s + Zeros(n)) && ReadDigits(s + Zeros(n)) == Shifted(ReadDigits(s), n)
  {
    if n == 0 {
      assert s + Zeros(0) == s;
    } else {
      hide AllDigits, ReadDigits;
      TrailingZeros(s, n - 1);
      ReadOneMore(s + Zeros(n - 1), '0');
      assert s + Zeros(n) == s + Zeros(n - 1) + ['0'];
    }
  }

  // ----- printing -----

  /** Left-pads with zeros. */
  function Pad(s: string, width: nat): string { if width <= |s| then s else Zeros(width - |s|) + s }

  /** Fixed-point rendering of the magnitude. */
  function Fixed(coefficient: nat, exponent: int): string {
    if 0 <= exponent then Digits(coefficient) + Zeros(exponent)
    else
      var places := -exponent;
      var s := Pad(Digits(coefficient), places + 1);
      PadLength(Digits(coefficient), places + 1);
      s[..|s| - places] + "." + s[|s| - places..]
  }

  lemma PadLength(s: string, width: nat)
    ensures width <= |Pad(s, width)|
  {
    if width > |s| { ZerosAreDigits(width - |s|); }
  }

  function StripRight(s: string, c: char): string {
    if s != "" && s[|s| - 1] == c then StripRight(s[..|s| - 1], c) else s
  }

  function Trim(s: string): string { if '.' in s then StripRight(StripRight(s, '0'), '.') else s }

  /** The canonical text; None when the value is not finite and the function raises. */
  function Print(d: Decimal): Option<string> {
    if d.NotFinite? then None
    else if d.coefficient == 0 then Some("0")
    else Some((if d.negative then "-" else "") + Trim(Fixed(d.coefficient, d.exponent)))
  }

  // ----- one number, one text -----

  lemma DigitsTimesTen(c: nat)
    requires 0 < c
    ensures Digits(10 * c) == Digits(c) + "0"
  {
    assert (10 * c) / 10 == c && (10 * c) % 10 == 0;
  }

  lemma StripOne(s: string, c: char)
    ensures StripRight(s + [c], c) == StripRight(s, c)
  {
    assert (s + [c])[..|s|] == s;
  }

  lemma PadOneMore(s: string, width: nat)
    ensures Pad(s + "0", width + 1) == Pad(s, width) + "0"
  {}

  lemma DigitsHaveNoPoint(s: string)
    requires AllDigits(s)
    ensures '.' !in s
  {}

  /** Moving a factor of ten between coefficient and exponent does not show. */
  lemma PrintTimesTen(c: nat, e: int)
    requires 0 < c
    ensures Trim(Fixed(10 * c, e)) == Trim(Fixed(c, e + 1))
  {
    hide Trim, Fixed;
    if 0 <= e { TenInFront(c, e); } else if e == -1 { TenAtPoint(c); } else { TenBehindPoint(c, -e - 1); }
  }

  lemma TenInFront(c: nat, e: nat)
    requires 0 < c
    ensures Trim(Fixed(10 * c, e)) == Trim(Fixed(c, e + 1))
  {
    hide Trim;
    DigitsTimesTen(c);
    ZerosFront(e);
    assert Digits(c) + "0" + Zeros(e) == Digits(c) + Zeros(e + 1);
  }

  lemma TenAtPoint(c: nat)
    requires 0 < c
    ensures Trim(Fixed(10 * c, -1)) == Trim(Fixed(c, 0))
  {
    hide Digits;
    var s := Digits(c);
    DigitsTimesTen(c);
    DigitsRead(c);
    var t := s + "0";
    assert Pad(t, 2) == t && t[..|t| - 1] == s && t[|t| - 1..] == "0";
    var rendered := s + "." + ['0'];
    assert Fixed(10 * c, -1) == rendered && '.' in rendered by { assert rendered[|s|] == '.'; }
    StripOne(s + ".", '0');
    assert (s + ".")[|s|] == '.';
    assert StripRight(s + ".", '0') == s + ".";
    StripOne(s, '.');
    DigitsHaveNoPoint(s);
    assert s + Zeros(0) == s;
  }

  lemma TenBehindPoint(c: nat, places: int)
    requires 0 < c && 0 < places
    ensures Trim(Fixed(10 * c, -places - 1)) == Trim(Fixed(c, -places))
  {
    hide Digits, Pad, StripRight;
    var s := Digits(c);
    DigitsTimesTen(c);
    PadOneMore(s, places + 1);
    PadLength(s, places + 1);
    var p := Pad(s, places + 1);
    assert (p + "0")[..|p + "0"| - (places + 1)] == p[..|p| - places];
    assert (p + "0")[|p + "0"| - (places + 1)..] == p[|p| - places..] + "0";
    var rendered := Fixed(c, -places);
    assert rendered == p[..|p| - places] + "." + p[|p| - places..];
    assert Fixed(10 * c, -places - 1) == rendered + ['0'];
    StripOne(rendered, '0');
    assert rendered[|p| - places] == '.' && (rendered + ['0'])[|p| - places] == '.';
  }

  lemma {:induction false} ZerosFront(n: nat)
    ensures "0" + Zeros(n) == Zeros(n + 1)
  {
    if n > 0 {
      ZerosFront(n - 1);
      assert "0" + Zeros(n) == "0" + Zeros(n - 1) + "0";
    }
  }

  lemma {:induction false} PrintTimesPower(c: nat, e: int, k: nat)
    requires 0 < c
    ensures 0 < c * Power(k) && Trim(Fixed(c * Power(k), e)) == Trim(Fixed(c, e + k))
    decreases k
  {
    hide Fixed, Trim;
    PowerPositive(k);
    PositiveProduct(c, Power(k));
    if k > 0 {
      PowerPositive(k - 1);
      PrintTimesPower(c, e + 1, k - 1);
      PositiveProduct(c, Power(k - 1));
      PrintTimesTen(c * Power(k - 1), e);
      TenAside(c, Power(k - 1), Power(k));
    }
  }

  lemma PositiveProduct(a: nat, b: nat)
    requires 0 < a && 0 < b
    ensures 0 < a * b
  {}

  lemma TimesTenLeft(p: nat, q: nat, s: real)
    requires q == 10 * p
    ensures Times(q, s) == 10.0 * Times(p, s)
  {
    assert q as real == 10.0 * p as real;
  }

  lemma {:induction false} ScalePower(e: int, k: nat)
    ensures Scale(e + k) == Times(Power(k), Scale(e))
  {
    hide Scale, Times;
    if k > 0 {
      ScalePower(e, k - 1);
      ScaleStep(e + k - 1);
      TimesTenLeft(Power(k - 1), Power(k), Scale(e));
    } else {
      TimesOne(Scale(e));
    }
  }

  lemma TimesOne(s: real)
    ensures Times(1, s) == s
  {}

  lemma TimesTwice(c: nat, p: nat, q: nat, s: real, t: real)
    requires q == c * p && t == Times(p, s)
    ensures Times(c, t) == Times(q, s)
  {
    assert q as real == c as real * p as real;
  }

  lemma CancelTimes(a: nat, b: nat, s: real)
    requires Times(a, s) == Times(b, s) && 0.0 < s
    ensures a == b
  {
    DivOfMul(a as real, s);
    DivOfMul(b as real, s);
  }

  lemma TimesPositive(c: nat, s: real)
    requires 0 < c && 0.0 < s
    ensures 0.0 < Times(c, s)
  {}

  /** Equal magnitudes differ only by powers of ten moved between coefficient and exponent. */
  lemma EqualMagnitudes(c1: nat, e1: int, c2: nat, e2: int)
    requires e1 <= e2 && Times(c1, Scale(e1)) == Times(c2, Scale(e2))
    ensures c1 == c2 * Power(e2 - e1)
  {
    hide Scale, Times;
    var p := Power(e2 - e1);
    ScalePower(e1, e2 - e1);
    ScaleStep(e1);
    TimesTwice(c2, p, c2 * p, Scale(e1), Scale(e2));
    CancelTimes(c1, c2 * p, Scale(e1));
  }

  lemma SignsAndMagnitudes(a: Decimal, b: Decimal)
    requires a.Finite? && b.Finite? && 0 < a.coefficient && 0 < b.coefficient && Value(a) == Value(b)
    ensures a.negative == b.negative
    ensures Times(a.coefficient, Scale(a.exponent)) == Times(b.coefficient, Scale(b.exponent))
  {
    hide Scale, Times;
    ScaleStep(a.exponent);
    ScaleStep(b.exponent);
    TimesPositive(a.coefficient, Scale(a.exponent));
    TimesPositive(b.coefficient, Scale(b.exponent));
  }

  lemma ZeroValue(d: Decimal)
    requires d.Finite?
    ensures Value(d) == 0.0 <==> d.coefficient == 0
  {
    ScaleStep(d.exponent);
    if 0 < d.coefficient { TimesPositive(d.coefficient, Scale(d.exponent)); }
  }

  /** Numerically equal decimals print the same text. */
  lemma EqualValuesPrintAlike(a: Decimal, b: Decimal)
    requires a.Finite? && b.Finite? && Value(a) == Value(b)
    ensures Print(a) == Print(b)
  {
    hide Fixed, Trim, Value, Scale, Times;
    ZeroValue(a);
    ZeroValue(b);
    if a.coefficient != 0 {
      SignsAndMagnitudes(a, b);
      if a.exponent <= b.exponent {
        EqualMagnitudes(a.coefficient, a.exponent, b.coefficient, b.exponent);
        PrintTimesPower(b.coefficient, a.exponent, b.exponent - a.exponent);
      } else {
        EqualMagnitudes(b.coefficient, b.exponent, a.coefficient, a.exponent);
        PrintTimesPower(a.coefficient, b.exponent, a.exponent - b.exponent);
      }
    }
  }

  // ----- reading the text back -----

  /** Position of the first point, or the length. */
  function PointAt(s: string): (i: nat)
    ensures i <= |s|
  {
    if s == "" || s[0] == '.' then 0 else 1 + PointAt(s[1..])
  }

  function ReadMagnitude(s: string): Option<real> {
    var i := PointAt(s);
    if i == |s| then (if AllDigits(s) then Some(ReadDigits(s) as real) else None)
    else
      var whole, part := s[..i], s[i + 1..];
      if AllDigits(whole + part) then Some(Times(ReadDigits(whole + part), Scale(-|part|))) else None
  }

  function Parse(s: string): Option<real> {
    if s != "" && s[0] == '-' then
      var m := ReadMagnitude(s[1..]);
      if m.Some? then Some(-m.value) else None
    else ReadMagnitude(s)
  }

  lemma {:induction false} PointAfter(whole: string, rest: string)
    requires AllDigits(whole) && (rest == "" || rest[0] == '.')
    ensures PointAt(whole + rest) == |whole|
  {
    if whole != "" {
      PointAfter(whole[1..], rest);
      assert (whole + rest)[1..] == whole[1..] + rest;
    } else {
      assert whole + rest == rest;
    }
  }

  lemma ReadPlain(s: string)
    requires AllDigits(s)
    ensures ReadMagnitude(s) == Some(ReadDigits(s) as real)
  {
    PointAfter(s, "");
    assert s + "" == s;
  }

  lemma ReadPointed(whole: string, part: string)
    requires AllDigits(whole) && AllDigits(part)
    ensures AllDigits(whole + part)
    ensures ReadMagnitude(whole + "." + part) == Some(Times(ReadDigits(whole + part), Scale(-|part|)))
  {
    hide Scale, Times;
    var s := whole + "." + part;
    assert s == whole + ("." + part) && |s| == |whole| + 1 + |part|;
    assert AllDigits(whole + part);
    PointAfter(whole, "." + part);
    assert s[..|whole|] == whole && s[|whole| + 1..] == part;
  }

  /** Stripping insignificant zeros, and a bare point, keeps the number that is read. */
  lemma {:induction false} TrimKeepsValue(whole: string, part: string)
    requires AllDigits(whole) && AllDigits(part)
    ensures AllDigits(whole + part)
    ensures ReadMagnitude(StripRight(StripRight(whole + "." + part, '0'), '.'))
         == Some(Times(ReadDigits(whole + part), Scale(-|part|)))
    decreases |part|
  {
    hide Scale, Times, ReadMagnitude, ReadDigits;
    if part == "" {
      TrimBarePoint(whole);
      assert whole + "." + part == whole + ['.'] && whole + part == whole;
    } else {
      var n := |part| - 1;
      assert whole + "." + part == whole + "." + part[..n] + [part[n]];
      assert whole + part == whole + part[..n] + [part[n]];
      if part[n] == '0' {
        StripOne(whole + "." + part[..n], '0');
        TrimKeepsValue(whole, part[..n]);
        ReadOneMore(whole + part[..n], '0');
        ScaleStep(-|part|);
        TenTimes(ReadDigits(whole + part[..n]), ReadDigits(whole + part), Scale(-|part|), Scale(-n));
      } else {
        NothingToStrip(whole + "." + part[..n], part[n]);
        ReadPointed(whole, part);
      }
    }
  }

  lemma NothingToStrip(s: string, c: char)
    requires c != '0' && c != '.'
    ensures StripRight(StripRight(s + [c], '0'), '.') == s + [c]
  {
    assert (s + [c])[|s + [c]| - 1] == c;
  }

  lemma TrimBarePoint(whole: string)
    requires AllDigits(whole)
    ensures ReadMagnitude(StripRight(StripRight(whole + ['.'], '0'), '.')) == Some(Times(ReadDigits(whole), Scale(0)))
  {
    var s := whole + ['.'];
    assert s[|s| - 1] == '.';
    assert StripRight(s, '0') == s;
    StripOne(whole, '.');
    DigitsHaveNoPoint(whole);
    assert StripRight(whole, '.') == whole;
    ReadPlain(whole);
  }

  lemma TenTimes(x: nat, y: nat, s: real, t: real)
    requires y == 10 * x && t == 10.0 * s
    ensures Times(y, s) == Times(x, t)
  {
    assert y as real == 10.0 * x as real;
  }

  lemma FixedReads(c: nat, e: int)
    ensures ReadMagnitude(Trim(Fixed(c, e))) == Some(Times(c, Scale(e)))
  {
    hide *;
    if 0 <= e { WholeReads(c, e); } else { FractionReads(c, -e); }
  }

  lemma WholeReads(c: nat, e: nat)
    ensures ReadMagnitude(Trim(Fixed(c, e))) == Some(Times(c, Scale(e)))
  {
    hide ReadMagnitude, ReadDigits, Times;
    DigitsRead(c);
    TrailingZeros(Digits(c), e);
    ShiftedIsProduct(c, e);
    DigitsHaveNoPoint(Digits(c) + Zeros(e));
    ReadPlain(Digits(c) + Zeros(e));
    NatProduct(c, Power(e));
    WholeTimes(c, Power(e), c * Power(e));
  }

  lemma NatProduct(a: nat, b: nat)
    ensures 0 <= a * b
  {}

  lemma WholeTimes(c: nat, p: nat, q: nat)
    requires q == c * p
    ensures q as real == Times(c, p as real)
  {}

  lemma FractionReads(c: nat, places: int)
    requires 0 < places
    ensures ReadMagnitude(Trim(Fixed(c, -places))) == Some(Times(c, Scale(-places)))
  {
    hide ReadMagnitude, ReadDigits, Times, Scale, StripRight, Pad;
    var s := Digits(c);
    DigitsRead(c);
    var p := Pad(s, places + 1);
    PadLength(s, places + 1);
    PadReads(s, places + 1);
    var whole, part := p[..|p| - places], p[|p| - places..];
    assert whole + part == p;
    TrimKeepsValue(whole, part);
    assert '.' in whole + "." + part by { assert (whole + "." + part)[|whole|] == '.'; }
  }

  lemma PadReads(s: string, width: nat)
    requires AllDigits(s)
    ensures AllDigits(Pad(s, width)) && ReadDigits(Pad(s, width)) == ReadDigits(s)
  {
    if width > |s| { LeadingZeros(width - |s|, s); }
  }

  lemma {:induction false} StripKeepsFirst(s: string, c: char)
    ensures StripRight(s, c) <= s
  {
    if s != "" && s[|s| - 1] == c { StripKeepsFirst(s[..|s| - 1], c); }
  }

  /** The text of a magnitude never starts with a sign. */
  lemma FixedHasNoSign(c: nat, e: int)
    ensures Trim(Fixed(c, e)) != "" ==> Trim(Fixed(c, e))[0] != '-'
  {
    DigitsRead(c);
    var s := Digits(c);
    if 0 <= e {
      ZerosAreDigits(e);
    } else {
      PadReads(s, -e + 1);
      PadLength(s, -e + 1);
    }
    StripKeepsFirst(Fixed(c, e), '0');
    StripKeepsFirst(StripRight(Fixed(c, e), '0'), '.');
  }

  /** Reading the printed text gives the number back. */
  lemma ParsePrint(d: Decimal)
    requires d.Finite?
    ensures Parse(Print(d).value) == Some(Value(d))
  {
    hide Fixed, Trim, ReadMagnitude;
    if d.coefficient == 0 {
      ZeroValue(d);
      ReadOneMore("", '0');
      assert "" + ['0'] == "0";
      ReadPlain("0");
    } else {
      FixedReads(d.coefficient, d.exponent);
      var m := Trim(Fixed(d.coefficient, d.exponent));
      if d.negative {
        assert ("-" + m)[1..] == m;
      } else {
        FixedHasNoSign(d.coefficient, d.exponent);
        assert "" + m == m;
      }
    }
  }

  /** Two decimals print the same exactly when they are numerically equal. */
  lemma PrintsAlikeIffEqual(a: Decimal, b: Decimal)
    requires a.Finite? && b.Finite?
    ensures Print(a) == Print(b) <==> Value(a) == Value(b)
  {
    ParsePrint(a);
    ParsePrint(b);
    if Value(a) == Value(b) { EqualValuesPrintAlike(a, b); }
  }

  // ----- what the text looks like -----

  /** Digits without an insignificant leading zero. */
  predicate WholeOk(s: string) { s == "0" || (s != "" && AllDigits(s) && s[0] != '0') }

  /** Digits without an insignificant trailing zero. */
  predicate PartOk(s: string) { s != "" && AllDigits(s) && s[|s| - 1] != '0' }

  /** A whole number, or a whole number, a point and at least one digit; nothing else, and no exponent. */
  ghost predicate CanonicalMagnitude(m: string) {
    WholeOk(m) || exists whole, part :: m == whole + "." + part && WholeOk(whole) && PartOk(part)
  }

  lemma {:induction false} DigitsLead(n: nat)
    requires 0 < n
    ensures Digits(n) != "" && Digits(n)[0] != '0'
  {
    if 10 <= n {
      DigitsLead(n / 10);
      assert Digits(n)[0] == Digits(n / 10)[0];
    }
  }

  lemma {:induction false} TrimForm(whole: string, part: string)
    requires WholeOk(whole) && AllDigits(part)
    ensures CanonicalMagnitude(StripRight(StripRight(whole + "." + part, '0'), '.'))
    decreases |part|
  {
    if part == "" {
      var s := whole + ['.'];
      assert s == whole + "." + part && s[|s| - 1] == '.';
      assert StripRight(s, '0') == s;
      StripOne(whole, '.');
      DigitsHaveNoPoint(whole);
      assert StripRight(whole, '.') == whole;
    } else {
      hide StripRight, WholeOk;
      var n := |part| - 1;
      assert whole + "." + part == whole + "." + part[..n] + [part[n]];
      if part[n] == '0' {
        StripOne(whole + "." + part[..n], '0');
        TrimForm(whole, part[..n]);
      } else {
        NothingToStrip(whole + "." + part[..n], part[n]);
        assert PartOk(part);
      }
    }
  }

  /** The digits in front of the point: a single zero, or those of the coefficient. */
  lemma WholeOfPadded(c: nat, places: int)
    requires 0 < c && 0 < places
    ensures var p := Pad(Digits(c), places + 1);
            places < |p| && AllDigits(p) && WholeOk(p[..|p| - places])
  {
    hide *;
    DigitsLead(c);
    DigitsRead(c);
    var s := Digits(c);
    PadLength(s, places + 1);
    PadReads(s, places + 1);
    if places + 1 <= |s| { LongEnough(s, places); } else { FilledUp(s, places); }
  }

  lemma LongEnough(s: string, places: nat)
    requires places < |s| && AllDigits(s) && s[0] != '0'
    ensures var p := Pad(s, places + 1); places < |p| && WholeOk(p[..|p| - places])
  {
    assert s[..|s| - places][0] == s[0];
  }

  lemma FilledUp(s: string, places: nat)
    requires |s| <= places && AllDigits(s)
    ensures var p := Pad(s, places + 1); |p| == places + 1 && WholeOk(p[..|p| - places])
  {
    hide Zeros;
    ZerosAreDigits(places + 1 - |s|);
    ZerosFront(places - |s|);
    var p := Pad(s, places + 1);
    assert p == "0" + Zeros(places - |s|) + s;
    assert p[..1] == "0";
  }

  lemma FixedForm(c: nat, e: int)
    requires 0 < c
    ensures CanonicalMagnitude(Trim(Fixed(c, e)))
  {
    hide *;
    if 0 <= e { WholeForm(c, e); } else { FractionForm(c, -e); }
  }

  lemma WholeForm(c: nat, e: nat)
    requires 0 < c
    ensures CanonicalMagnitude(Trim(Fixed(c, e)))
  {
    DigitsRead(c);
    DigitsLead(c);
    ZerosAreDigits(e);
    hide Digits, Zeros, ReadDigits;
    var s := Digits(c) + Zeros(e);
    assert s[0] == Digits(c)[0];
    DigitsHaveNoPoint(s);
  }

  lemma FractionSplit(c: nat, places: int) returns (whole: string, part: string)
    requires 0 < c && 0 < places
    ensures WholeOk(whole) && AllDigits(part) && Fixed(c, -places) == whole + "." + part
  {
    WholeOfPadded(c, places);
    var p := Pad(Digits(c), places + 1);
    whole, part := p[..|p| - places], p[|p| - places..];
    DigitsBehind(p, |p| - places);
    hide WholeOk, Pad, Digits, AllDigits;
  }

  lemma DigitsBehind(s: string, k: nat)
    requires AllDigits(s) && k <= |s|
    ensures AllDigits(s[k..])
  {}

  lemma FractionForm(c: nat, places: int)
    requires 0 < c && 0 < places
    ensures CanonicalMagnitude(Trim(Fixed(c, -places)))
  {
    var whole, part := FractionSplit(c, places);
    hide Fixed, WholeOk, AllDigits, StripRight, CanonicalMagnitude;
    assert (whole + "." + part)[|whole|] == '.';
    TrimForm(whole, part);
  }

  /**
   * The printed text is canonical: an optional sign, no leading zero but a single one before the point, no zero
   * and no bare point at the end of a fraction, and never a signed zero.
   */
  lemma TextIsCanonical(d: Decimal)
    requires d.Finite?
    ensures var t := Print(d).value;
            && t != "" && t != "-0"
            && CanonicalMagnitude(if t[0] == '-' then t[1..] else t)
            && ('.' in t ==> t[|t| - 1] != '.' && t[|t| - 1] != '0')
  {
    hide Fixed, Trim, CanonicalMagnitude;
    if d.coefficient != 0 {
      var m := Trim(Fixed(d.coefficient, d.exponent));
      FixedForm(d.coefficient, d.exponent);
      FixedHasNoSign(d.coefficient, d.exponent);
      NotZeroText(d.coefficient, d.exponent);
      MagnitudeEnds(m);
      var signed := "-" + m;
      assert signed[1..] == m && "" + m == m;
    } else {
      ZeroIsCanonical();
    }
  }

  lemma ZeroIsCanonical()
    ensures CanonicalMagnitude("0")
  {
    assert WholeOk("0");
  }

  lemma ZeroReads()
    ensures ReadMagnitude("0") == Some(0.0)
  {
    ReadOneMore("", '0');
    assert "" + ['0'] == "0";
    ReadPlain("0");
  }

  lemma NotZeroText(c: nat, e: int)
    requires 0 < c
    ensures Trim(Fixed(c, e)) != "0"
  {
    hide Fixed, Trim, ReadMagnitude, Times, Scale;
    FixedReads(c, e);
    ScaleStep(e);
    TimesPositive(c, Scale(e));
    ZeroReads();
  }

  lemma MagnitudeEnds(m: string)
    requires CanonicalMagnitude(m)
    ensures m != "" && ('.' in m ==> m[|m| - 1] != '.' && m[|m| - 1] != '0')
  {
    if WholeOk(m) {
      DigitsHaveNoPoint(m);
    } else {
      var whole, part :| m == whole + "." + part && WholeOk(whole) && PartOk(part);
      assert m[|m| - 1] == part[|part| - 1];
    }
  }
}
