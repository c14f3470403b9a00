/** JavaScript numbers as the decimal values they print: `Number(text)` on decimal literals and
    `Number.prototype.toString`, section 6.1.6.1.20 of ECMA-262. Rounding to a double is left out. */
module Decimal {
  import opened Optional
  import opened Text

  /** Zero, or 0.d1...dk times ten to the power `point`, without a zero at either end of the digits. */
  datatype Number = Zero | Positive(digits: string, point: int)

  predicate Canonical(x: Number) {
    x.Positive? ==>
      && x.digits != "" && AllDigits(x.digits)
      && x.digits[0] != '0' && x.digits[|x.digits| - 1] != '0'
  }

  function Zeros(n: nat): string { seq(n, _ => '0') }

  // ---------- Reading a literal ----------

  function WithoutLeading(digits: string): string {
    if digits != "" && digits[0] == '0' then WithoutLeading(digits[1..]) else digits
  }

  function WithoutTrailing(digits: string): string {
    if digits != "" && digits[|digits| - 1] == '0' then WithoutTrailing(digits[..|digits| - 1]) else digits
  }

  /** 0.digits times ten to the power `point`. */
  function Normal(digits: string, point: int): Number {
    var rest := WithoutLeading(digits);
    var kept := WithoutTrailing(rest);
    if kept == "" then Zero else Positive(kept, point - (|digits| - |rest|))
  }

  predicate Natural(text: string) { text != "" && AllDigits(text) }

  /** The exponent's `[+-]?\d+`. */
  function ReadExponent(text: string): Option<int> {
    var signed := text != "" && (text[0] == '+' || text[0] == '-');
    var digits := if signed then text[1..] else text;
    if !Natural(digits) then None
    else
      var value: int := NatValue(digits);
      Some(if signed && text[0] == '-' then -value else value)
  }

  /** `\d+(?:\.\d+)?`, scaled by ten to the power `exponent`. */
  function ReadPlain(text: string, exponent: int): Option<Number> {
    var dot := IndexOf(text, '.');
    var whole, fraction := text[..dot], if dot < |text| then text[dot + 1..] else "";
    if !Natural(whole) || (dot < |text| && !Natural(fraction)) then None
    else Some(Normal(whole + fraction, |whole| + exponent))
  }

  function ExponentMark(text: string): (at: nat)
    ensures at <= |text|
  {
    var lower, upper := IndexOf(text, 'e'), IndexOf(text, 'E');
    if lower < upper then lower else upper
  }

  /** `\d+(?:\.\d+)?(?:e[+-]?\d+)?` in either case, as a number. */
  function Read(text: string): Option<Number> {
    var at := ExponentMark(text);
    if at == |text| then ReadPlain(text, 0)
    else
      var exponent := ReadExponent(text[at + 1..]);
      if exponent.None? then None else ReadPlain(text[..at], exponent.value)
  }

  // ---------- Printing a number ----------

  function Mantissa(digits: string): string
    requires digits != ""
  {
    if |digits| == 1 then digits else digits[..1] + "." + digits[1..]
  }

  function Exponent(n: int): string {
    if n > 0 then "+" + NatText(n - 1) else "-" + NatText(1 - n)
  }

  /** The two sides of the dot, when there is one and no exponent. */
  function WholePart(x: Number): string
    requires x.Positive? && x.point < |x.digits|
  {
    if x.point > 0 then x.digits[..x.point] else "0"
  }

  function FractionPart(x: Number): string
    requires x.Positive? && x.point < |x.digits|
  {
    if x.point > 0 then x.digits[x.point..] else Zeros(-x.point) + x.digits
  }

  function Print(x: Number): string
    requires Canonical(x)
  {
    if x.Zero? then "0"
    else
      var k, n := |x.digits|, x.point;
      if k <= n <= 21 then x.digits + Zeros(n - k)
      else if -6 < n <= 21 then WholePart(x) + "." + FractionPart(x)
      else
        Mantissa(x.digits) + "e" + Exponent(n)
  }

  /** The number prints without an exponent. */
  predicate PrintsPlainly(x: Number) {
    x.Zero? || -6 < x.point <= 21
  }

  // ---------- Reading back what is printed ----------

  lemma {:induction false} StripLeading(n: nat, digits: string)
    requires digits == "" || digits[0] != '0'
    ensures WithoutLeading(Zeros(n) + digits) == digits
  {
    if n > 0 {
      assert (Zeros(n) + digits)[1..] == Zeros(n - 1) + digits;
      StripLeading(n - 1, digits);
    } else {
      assert Zeros(0) + digits == digits;
    }
  }

  lemma {:induction false} StripTrailing(digits: string, n: nat)
    requires digits == "" || digits[|digits| - 1] != '0'
    ensures WithoutTrailing(digits + Zeros(n)) == digits
  {
    var text := digits + Zeros(n);
    if n > 0 {
      assert text[..|text| - 1] == digits + Zeros(n - 1);
      StripTrailing(digits, n - 1);
    } else {
      assert text == digits;
    }
  }

  lemma NormalOf(before: nat, x: Number, after: nat)
    requires x.Positive? && Canonical(x)
    ensures Normal(Zeros(before) + x.digits + Zeros(after), x.point + before) == x
  {
    assert Zeros(before) + x.digits + Zeros(after) == Zeros(before) + (x.digits + Zeros(after));
    StripLeading(before, x.digits + Zeros(after));
    StripTrailing(x.digits, after);
  }

  lemma {:induction false} LeadingIs(digits: string)
    ensures WithoutLeading(digits) == "" || WithoutLeading(digits)[0] != '0'
    ensures forall c :: c in WithoutLeading(digits) ==> c in digits
  {
    if digits != "" && digits[0] == '0' { LeadingIs(digits[1..]); }
  }

  lemma {:induction false} TrailingIs(digits: string)
    ensures WithoutTrailing(digits) <= digits
    ensures WithoutTrailing(digits) == "" || WithoutTrailing(digits)[|WithoutTrailing(digits)| - 1] != '0'
  {
    if digits != "" && digits[|digits| - 1] == '0' { TrailingIs(digits[..|digits| - 1]); }
  }

  lemma NormalIsCanonical(digits: string, point: int)
    requires AllDigits(digits)
    ensures Canonical(Normal(digits, point))
  {
    LeadingIs(digits);
    TrailingIs(WithoutLeading(digits));
  }

  lemma PlainIsCanonical(text: string, exponent: int)
    requires ReadPlain(text, exponent).Some?
    ensures Canonical(ReadPlain(text, exponent).value)
  {
    hide Normal, Canonical, IndexOf;
    var dot := IndexOf(text, '.');
    NormalIsCanonical(text[..dot] + (if dot < |text| then text[dot + 1..] else ""), dot + exponent);
  }

  lemma ReadIsCanonical(text: string)
    requires Read(text).Some?
    ensures Canonical(Read(text).value)
  {
    hide ReadPlain, ReadExponent, Canonical;
    var at := ExponentMark(text);
    assert at == |text| ==> text[..at] == text;
    PlainIsCanonical(text[..at], if at == |text| then 0 else ReadExponent(text[at + 1..]).value);
  }

  lemma NotFound(text: string, mark: char)
    requires mark !in text
    ensures IndexOf(text, mark) == |text|
  {
  }

  /** Digits and a dot: no exponent mark. */
  predicate Plain(text: string) {
    forall c :: c in text ==> IsDigit(c) || c == '.'
  }

  lemma DotJoins(whole: string, fraction: string)
    requires AllDigits(whole) && AllDigits(fraction)
    ensures Plain(whole) && Plain(whole + "." + fraction)
  {
  }

  lemma PartsAreDigits(x: Number, n: nat)
    requires x.Positive? && Canonical(x) && n <= |x.digits|
    ensures AllDigits(x.digits[..n]) && AllDigits(x.digits[n..])
  {
  }

  lemma ZerosAreDigits(n: nat, digits: string)
    requires AllDigits(digits)
    ensures AllDigits(Zeros(n) + digits) && AllDigits(digits + Zeros(n))
  {
  }

  lemma ReadPlainWhole(whole: string, exponent: int)
    requires Natural(whole)
    ensures ReadPlain(whole, exponent) == Some(Normal(whole, |whole| + exponent))
  {
    assert '.' !in whole by { assert !IsDigit('.'); }
    NotFound(whole, '.');
    assert whole + "" == whole;
  }

  lemma ReadPlainFraction(whole: string, fraction: string, exponent: int)
    requires Natural(whole) && Natural(fraction)
    ensures ReadPlain(whole + "." + fraction, exponent) == Some(Normal(whole + fraction, |whole| + exponent))
  {
    var text := whole + "." + fraction;
    IndexAfter(whole, '.', fraction);
    assert text[..|whole|] == whole && text[|whole| + 1..] == fraction;
  }

  lemma ReadWithoutExponent(text: string)
    requires Plain(text)
    ensures Read(text) == ReadPlain(text, 0)
  {
    NotFound(text, 'e');
    NotFound(text, 'E');
  }

  lemma ReadWithExponent(plain: string, tail: string)
    requires Plain(plain) && ReadExponent(tail).Some?
    ensures Read(plain + "e" + tail) == ReadPlain(plain, ReadExponent(tail).value)
  {
    var text := plain + "e" + tail;
    IndexAfter(plain, 'e', tail);
    assert ExponentMark(text) == |plain| by {
      forall i | 0 <= i < |plain| ensures text[i] != 'E' {
        assert text[i] == plain[i] && plain[i] in plain;
      }
    }
    assert text[..|plain|] == plain && text[|plain| + 1..] == tail;
  }

  lemma ReadExponentOf(n: int)
    ensures ReadExponent(Exponent(n)) == Some(n - 1)
  {
    var size: nat := if n > 0 then n - 1 else 1 - n;
    NatTextReads(size);
    var text := (if n > 0 then "+" else "-") + NatText(size);
    assert text[1..] == NatText(size);
  }

  /** How a whole number prints. */
  lemma WholeZeros(x: Number) returns (zeros: nat)
    requires x.Positive? && Canonical(x) && |x.digits| <= x.point <= 21
    ensures var text := x.digits + Zeros(zeros); Print(x) == text && |text| == x.point && text != "" && AllDigits(text)
    ensures AllDigits("")
  {
    hide Read;
    zeros := x.point - |x.digits|;
    ZerosAreDigits(zeros, x.digits);
  }

  lemma NaturalIs(text: string)
    requires text != "" && AllDigits(text)
    ensures Natural(text)
  {
  }

  lemma Unpadded(digits: string, zeros: string)
    ensures Zeros(0) + digits + zeros == digits + zeros
  {
  }

  lemma PrintedWhole(x: Number)
    requires x.Positive? && Canonical(x) && |x.digits| <= x.point <= 21
    ensures Read(Print(x)) == Some(x)
  {
    hide *;
    var zeros := WholeZeros(x);
    var text := x.digits + Zeros(zeros);
    NormalOf(0, x, zeros);
    Unpadded(x.digits, Zeros(zeros));
    DotJoins(text, "");
    NaturalIs(text);
    ReadWithoutExponent(text);
    ReadPlainWhole(text, 0);
  }

  lemma SidesAreDigits(x: Number)
    requires x.Positive? && Canonical(x) && x.point < |x.digits|
    ensures Natural(WholePart(x)) && Natural(FractionPart(x))
    ensures AllDigits(WholePart(x)) && AllDigits(FractionPart(x))
  {
    if x.point > 0 { PartsAreDigits(x, x.point); } else { ZerosAreDigits(-x.point, x.digits); }
  }

  lemma Cut(digits: string, n: nat)
    requires n <= |digits|
    ensures digits[..n] + digits[n..] == digits + Zeros(0)
  {
  }

  lemma LeadingZero(n: nat, digits: string)
    ensures "0" + (Zeros(n) + digits) == Zeros(n + 1) + digits + Zeros(0)
  {
  }

  lemma SidesJoin(x: Number)
    requires x.Positive? && Canonical(x) && x.point < |x.digits|
    ensures Normal(WholePart(x) + FractionPart(x), |WholePart(x)| + 0) == x
  {
    hide Normal, Canonical;
    if x.point > 0 {
      NormalOf(0, x, 0);
      Unpadded(x.digits, Zeros(0));
      Cut(x.digits, x.point);
    } else {
      NormalOf(1 - x.point, x, 0);
      LeadingZero(-x.point, x.digits);
    }
  }

  lemma PrintedFraction(x: Number)
    requires x.Positive? && Canonical(x) && -6 < x.point <= 21 && x.point < |x.digits|
    ensures Read(Print(x)) == Some(x)
  {
    assert Print(x) == WholePart(x) + "." + FractionPart(x);
    hide *;
    SidesAreDigits(x);
    DotJoins(WholePart(x), FractionPart(x));
    ReadWithoutExponent(WholePart(x) + "." + FractionPart(x));
    ReadPlainFraction(WholePart(x), FractionPart(x), 0);
    SidesJoin(x);
  }

  lemma Padded(digits: string)
    ensures digits + Zeros(0) == digits
  {
  }

  lemma MantissaReads(x: Number)
    requires x.Positive? && Canonical(x)
    ensures Plain(Mantissa(x.digits)) && ReadPlain(Mantissa(x.digits), x.point - 1) == Some(x)
  {
    hide ReadPlain, Normal, Zeros, Plain;
    var first, rest := x.digits[..1], x.digits[1..];
    PartsAreDigits(x, 1);
    NormalOf(0, x, 0);
    Unpadded(x.digits, Zeros(0));
    Cut(x.digits, 1);
    Padded(x.digits);
    hide *;
    if |x.digits| == 1 {
      DotJoins(x.digits, "");
      ReadPlainWhole(x.digits, x.point - 1);
    } else {
      DotJoins(first, rest);
      ReadPlainFraction(first, rest, x.point - 1);
    }
  }

  lemma PrintedExponent(x: Number)
    requires x.Positive? && Canonical(x) && !(-6 < x.point <= 21)
    ensures Read(Print(x)) == Some(x)
  {
    assert Print(x) == Mantissa(x.digits) + "e" + Exponent(x.point);
    hide *;
    ReadExponentOf(x.point);
    MantissaReads(x);
    ReadWithExponent(Mantissa(x.digits), Exponent(x.point));
  }

  /** What a number prints as reads back as the number. */
  lemma ReadPrint(x: Number)
    requires Canonical(x)
    ensures Read(Print(x)) == Some(x)
  {
    if x.Zero? {
      ReadWithoutExponent("0");
      ReadPlainWhole("0", 0);
      assert "0"[1..] == "";
    } else if |x.digits| <= x.point <= 21 {
      PrintedWhole(x);
    } else if -6 < x.point <= 21 {
      PrintedFraction(x);
    } else {
      PrintedExponent(x);
    }
  }

  /** Only these characters are printed. */
  predicate Printed(c: char) { IsDigit(c) || c in ".e+-" }

  lemma ExponentCharacters(x: Number)
    requires x.Positive? && Canonical(x) && !(-6 < x.point <= 21)
    ensures Print(x) != "" && 'e' in Print(x) && forall c :: c in Print(x) ==> Printed(c)
  {
    var n := x.point;
    PartsAreDigits(x, 1);
    var plain, tail := Mantissa(x.digits), Exponent(n);
    assert Print(x) == plain + "e" + tail;
    NatTextReads(if n > 0 then n - 1 else 1 - n);
    hide NatText, Print;
    assert (plain + "e" + tail)[|plain|] == 'e';
  }

  lemma PrintCharacters(x: Number)
    requires Canonical(x)
    ensures Print(x) != "" && forall c :: c in Print(x) ==> Printed(c)
    ensures if PrintsPlainly(x) then Plain(Print(x)) else 'e' in Print(x)
  {
    if x.Positive? {
      var k, n := |x.digits|, x.point;
      if k <= n <= 21 {
        ZerosAreDigits(n - k, x.digits);
      } else if -6 < n <= 21 {
        SidesAreDigits(x);
        DotJoins(WholePart(x), FractionPart(x));
      } else {
        ExponentCharacters(x);
      }
    }
  }

  // ---------- Safe integers and finite numbers ----------

  const LARGEST_SAFE: nat := 9007199254740991

  /** `Number.isSafeInteger`; a safe integer has at most sixteen digits. */
  predicate IsSafeInteger(x: Number) {
    Canonical(x) &&
    (x.Zero? ||
     (|x.digits| <= x.point <= 16 && NatValue(x.digits + Zeros(x.point - |x.digits|)) <= LARGEST_SAFE))
  }

  function Power(base: nat, exponent: nat): nat {
    if exponent == 0 then 1 else base * Power(base, exponent - 1)
  }

  /** `Number.isFinite`: below 2^1024 - 2^970, from which on a literal is read as Infinity. */
  predicate IsFinite(x: Number) {
    Canonical(x) &&
    (x.Zero? ||
     (var limit := Power(2, 1024) - Power(2, 970);
      var k, n := |x.digits|, x.point;
      if k <= n then NatValue(x.digits) * Power(10, n - k) < limit else NatValue(x.digits) < limit * Power(10, k - n)))
  }

  // ---------- What a literal is worth ----------

  /** `n` times ten to the power `e`. */
  function Scaled(n: nat, e: nat): nat {
    n * Power(10, e)
  }

  /** The number is `n` times ten to the power `e`. */
  predicate IsWorth(x: Number, n: nat, e: int) {
    (x.Zero? <==> n == 0) &&
    (x.Positive? ==>
       var shift := x.point - |x.digits| - e;
       AllDigits(x.digits) && shift >= 0 && n == Scaled(NatValue(x.digits), shift))
  }

  lemma {:induction false} LeadingZeros(digits: string)
    requires AllDigits(digits)
    ensures AllDigits(WithoutLeading(digits)) && NatValue(WithoutLeading(digits)) == NatValue(digits)
  {
    if digits != "" && digits[0] == '0' {
      LeadingZeros(digits[1..]);
      LeadingZeroValue(digits);
    }
  }

  lemma TimesTen(n: nat, e: nat)
    ensures Scaled(n, e) * 10 == Scaled(n, e + 1)
  {
  }

  lemma {:induction false} TrailingZeros(digits: string)
    requires AllDigits(digits)
    ensures AllDigits(WithoutTrailing(digits)) && |WithoutTrailing(digits)| <= |digits|
    ensures NatValue(digits) == Scaled(NatValue(WithoutTrailing(digits)), |digits| - |WithoutTrailing(digits)|)
  {
    if digits != "" && digits[|digits| - 1] == '0' {
      var front := digits[..|digits| - 1];
      hide Scaled;
      TrailingZeros(front);
      TimesTen(NatValue(WithoutTrailing(front)), |front| - |WithoutTrailing(front)|);
    }
  }

  lemma {:induction false} WorthSomething(digits: string)
    requires AllDigits(digits) && digits != "" && digits[0] != '0'
    ensures NatValue(digits) >= Power(10, |digits| - 1)
  {
    if |digits| > 1 {
      WorthSomething(digits[..|digits| - 1]);
    } else {
      assert NatValue(digits[..0]) == 0 && digits[0] in digits;
      assert ValueOf(digits[0]) >= 1;
    }
  }

  lemma NothingIsZero(e: nat)
    ensures Scaled(NatValue(""), e) == 0
  {
  }

  lemma Worth(x: Number, n: nat, e: int, shift: nat)
    requires x.Positive? && AllDigits(x.digits) && n != 0
    requires shift == x.point - |x.digits| - e && n == Scaled(NatValue(x.digits), shift)
    ensures IsWorth(x, n, e)
  {
  }

  lemma {:induction false} PowerIsPositive(e: nat)
    ensures Power(10, e) > 0
  {
    if e > 0 { PowerIsPositive(e - 1); }
  }

  lemma NormalWorth(digits: string, point: int)
    requires AllDigits(digits)
    ensures IsWorth(Normal(digits, point), NatValue(digits), point - |digits|)
  {
    var rest := WithoutLeading(digits);
    var kept := WithoutTrailing(rest);
    hide WithoutLeading, WithoutTrailing, NatValue, Power, AllDigits, Scaled;
    LeadingZeros(digits);
    TrailingZeros(rest);
    if kept == "" {
      NothingIsZero(|rest|);
    } else {
      LeadingIs(digits);
      TrailingIs(rest);
      WorthSomething(rest);
      PowerIsPositive(|rest| - 1);
      hide IsWorth;
      Worth(Normal(digits, point), NatValue(digits), point - |digits|, |rest| - |kept|);
    }
  }

  /** A literal's digits, with or without a fraction. */
  predicate IsPlainLiteral(text: string, whole: string, fraction: string) {
    && Natural(whole) && AllDigits(fraction)
    && text == whole + (if fraction == "" then "" else "." + fraction)
  }

  /** Its exponent, with or without a sign. */
  predicate IsExponent(text: string, exponent: int) {
    && text != ""
    && ((Natural(text) && exponent == NatValue(text))
        || (text[0] == '+' && Natural(text[1..]) && exponent == NatValue(text[1..]))
        || (text[0] == '-' && Natural(text[1..]) && exponent == -(NatValue(text[1..]) as int)))
  }

  /** The text is a decimal literal: digits, perhaps a fraction, perhaps an exponent. */
  ghost predicate IsLiteral(text: string, whole: string, fraction: string, exponent: int) {
    || (IsPlainLiteral(text, whole, fraction) && exponent == 0)
    || exists at: nat :: at < |text| && text[at] in "eE"
                         && IsPlainLiteral(text[..at], whole, fraction) && IsExponent(text[at + 1..], exponent)
  }

  lemma BothDigits(a: string, b: string)
    requires AllDigits(a) && AllDigits(b)
    ensures AllDigits(a + b)
  {
  }

  lemma ExponentIs(text: string)
    ensures forall exponent :: IsExponent(text, exponent) <==> ReadExponent(text) == Some(exponent)
  {
    assert !IsDigit('+') && !IsDigit('-');
    if text != "" { assert text[0] in text; }
  }

  /** How the digits before an exponent are read. */
  lemma PlainSplits(text: string, exponent: int) returns (whole: string, fraction: string)
    requires ReadPlain(text, exponent).Some?
    ensures IsPlainLiteral(text, whole, fraction)
  {
    hide Normal;
    var dot := IndexOf(text, '.');
    hide IndexOf;
    whole, fraction := text[..dot], if dot < |text| then text[dot + 1..] else "";
    assert text == whole + if dot < |text| then "." + fraction else "";
  }

  lemma PlainJoins(text: string, whole: string, fraction: string, exponent: int)
    requires IsPlainLiteral(text, whole, fraction)
    ensures ReadPlain(text, exponent) == Some(Normal(whole + fraction, |whole| + exponent))
    ensures AllDigits(whole + fraction) && Plain(text)
  {
    hide Normal, ReadPlain;
    BothDigits(whole, fraction);
    DotJoins(whole, fraction);
    if fraction == "" {
      assert text == whole && whole + fraction == whole;
      ReadPlainWhole(whole, exponent);
    } else {
      assert text == whole + "." + fraction;
      ReadPlainFraction(whole, fraction, exponent);
    }
  }

  lemma PlainIsRead(text: string, whole: string, fraction: string, exponent: int)
    requires IsPlainLiteral(text, whole, fraction)
    ensures ReadPlain(text, exponent).Some? && Plain(text)
    ensures IsWorth(ReadPlain(text, exponent).value, NatValue(whole + fraction), exponent - |fraction|)
  {
    hide *;
    PlainJoins(text, whole, fraction, exponent);
    NormalWorth(whole + fraction, |whole| + exponent);
    assert |whole| + exponent - |whole + fraction| == exponent - |fraction|;
  }

  lemma ReadSplits(text: string, at: nat)
    requires at < |text| && text[at] in "eE" && Plain(text[..at])
    ensures ExponentMark(text) == at
  {
    assert text == text[..at] + [text[at]] + text[at + 1..];
    assert 'e' !in text[..at] && 'E' !in text[..at];
    IndexAfter(text[..at], text[at], text[at + 1..]);
    forall i | 0 <= i < at ensures text[i] != 'e' && text[i] != 'E' {
      assert text[..at][i] == text[i];
    }
  }

  lemma LiteralIsRead(text: string, whole: string, fraction: string, exponent: int)
    requires IsLiteral(text, whole, fraction, exponent)
    ensures Read(text).Some? && IsWorth(Read(text).value, NatValue(whole + fraction), exponent - |fraction|)
  {
    hide ReadPlain, ReadExponent, IsWorth, IsPlainLiteral, IsExponent, Plain;
    if IsPlainLiteral(text, whole, fraction) && exponent == 0 {
      PlainIsRead(text, whole, fraction, 0);
      ReadWithoutExponent(text);
    } else {
      var at: nat :| at < |text| && text[at] in "eE"
          && IsPlainLiteral(text[..at], whole, fraction) && IsExponent(text[at + 1..], exponent);
      PlainIsRead(text[..at], whole, fraction, exponent);
      ReadSplits(text, at);
      ExponentIs(text[at + 1..]);
    }
  }

  /** Exactly the decimal literals are read, each as the number it stands for. */
  lemma ReadIsWorth(text: string)
    ensures Read(text).Some? <==> exists whole, fraction, exponent :: IsLiteral(text, whole, fraction, exponent)
    ensures forall whole, fraction, exponent :: IsLiteral(text, whole, fraction, exponent) ==>
              Read(text).Some? && IsWorth(Read(text).value, NatValue(whole + fraction), exponent - |fraction|)
  {
    forall whole, fraction, exponent | IsLiteral(text, whole, fraction, exponent)
      ensures Read(text).Some? && IsWorth(Read(text).value, NatValue(whole + fraction), exponent - |fraction|)
    {
      LiteralIsRead(text, whole, fraction, exponent);
    }
    if Read(text).Some? {
      hide ReadPlain, ReadExponent, IsWorth, IsPlainLiteral, IsExponent;
      var at := ExponentMark(text);
      assert at == |text| ==> text[..at] == text;
      if at < |text| {
        ExponentIs(text[at + 1..]);
      }
      var exponent := if at == |text| then 0 else ReadExponent(text[at + 1..]).value;
      var whole, fraction := PlainSplits(text[..at], exponent);
      assert IsLiteral(text, whole, fraction, exponent);
    }
  }

  lemma {:induction false} ZerosWorth(digits: string, n: nat)
    requires AllDigits(digits)
    ensures AllDigits(digits + Zeros(n)) && NatValue(digits + Zeros(n)) == Scaled(NatValue(digits), n)
  {
    var text := digits + Zeros(n);
    if n > 0 {
      ZerosWorth(digits, n - 1);
      assert text[..|text| - 1] == digits + Zeros(n - 1);
      TimesTen(NatValue(digits), n - 1);
    } else {
      assert text == digits;
    }
  }

  lemma {:induction false} PowerGrows(a: nat, b: nat)
    requires a <= b
    ensures Power(10, a) <= Power(10, b)
    decreases b
  {
    if a < b { PowerGrows(a, b - 1); }
  }

  lemma PowerOfSixteen()
    ensures Power(10, 16) == 10000000000000000
  {
    assert Power(10, 4) == 10000;
    assert Power(10, 8) == 100000000;
    assert Power(10, 12) == 1000000000000;
  }

  /** A whole number is safe up to 2^53 - 1. */
  lemma SafeIs(text: string)
    requires Natural(text)
    ensures ReadPlain(text, 0).Some? && Read(text) == ReadPlain(text, 0)
    ensures IsSafeInteger(ReadPlain(text, 0).value) <==> NatValue(text) <= 9007199254740991
  {
    hide Read, ReadPlain, Power, Scaled;
    assert text + "" == text && IsPlainLiteral(text, text, "");
    PlainIsRead(text, text, "", 0);
    PlainIsCanonical(text, 0);
    ReadWithoutExponent(text);
    var x := ReadPlain(text, 0).value;
    if x.Positive? {
      var shift := x.point - |x.digits|;
      ZerosWorth(x.digits, shift);
      WorthSomething(x.digits + Zeros(shift));
      if x.point > 16 {
        PowerGrows(16, x.point - 1);
        PowerOfSixteen();
      }
    }
  }

  /** Each form that is printed, on both sides of where it ends. */
  lemma PlainForms()
    ensures Print(Zero) == "0" && Print(Positive("1235", 3)) == "123.5" && Print(Positive("12", 4)) == "1200"
  {
    assert "1235"[..3] == "123" && "1235"[3..] == "5" && Zeros(2) == "00";
  }

  lemma LongestPlainForms()
    ensures Print(Positive("1", 21)) == "100000000000000000000" && Print(Positive("1", -5)) == "0.000001"
  {
    assert Zeros(20) == "00000000000000000000" && Zeros(5) == "00000";
  }

  lemma ExponentForms()
    ensures Print(Positive("1", 22)) == "1e+21" && Print(Positive("15", -6)) == "1.5e-7"
  {
    assert NatText(2) == "2" && NatText(21) == NatText(2) + [DigitOf(1)] && NatText(7) == "7";
    assert Exponent(22) == "+21" && Exponent(-6) == "-7";
    assert "15"[..1] == "1" && "15"[1..] == "5";
    hide NatText, Exponent;
  }
}
