/** The money parser of `frontend/src/api.ts` and the printer of `frontend/src/App.tsx`: decimal
    strings, without floating point, for any number of fraction digits. */
module Money {

  const MAX_MINOR: nat := 100_000_000

  /* Digit strings. */

  predicate IsDigit(ch: char) {
    '0' <= ch <= '9'
  }

  predicate AllDigits(s: string) {
    forall i :: 0 <= i < |s| ==> IsDigit(s[i])
  }

  function DigitValue(ch: char): (n: nat)
    requires IsDigit(ch)
    ensures n < 10
  {
    (ch - '0') as nat
  }

  function DigitChar(n: nat): (ch: char)
    requires n < 10
    ensures IsDigit(ch) && DigitValue(ch) == n
  {
    '0' + n as char
  }

  /** `BigInt(s)` of a digit string. */
  function Value(s: string): nat
    requires AllDigits(s)
  {
    if s == "" then 0 else 10 * Value(s[..|s| - 1]) + DigitValue(s[|s| - 1])
  }

  /** `String(n)` */
  function Decimal(n: nat): (s: string)
    ensures |s| >= 1 && AllDigits(s) && Value(s) == n
  {
    if n < 10 then
      var s := [DigitChar(n)];
      assert s[..|s| - 1] == "";
      s
    else
      var s := Decimal(n / 10) + [DigitChar(n % 10)];
      assert s[..|s| - 1] == Decimal(n / 10);
      s
  }

  function Pow10(n: nat): (p: nat)
    ensures p >= 1
  {
    if n == 0 then 1 else 10 * Pow10(n - 1)
  }

  /** `'0'.repeat(n)` */
  function Zeros(n: nat): (s: string)
    ensures |s| == n && AllDigits(s)
  {
    seq(n, _ => '0')
  }

  /** `s.padStart(n, '0')` */
  function PadStart(s: string, n: nat): string {
    if |s| >= n then s else Zeros(n - |s|) + s
  }

  /** `Math.floor(amount / scale)` and `amount % scale` */
  function DivMod(amount: nat, scale: nat): (r: (nat, nat))
    requires scale >= 1
    ensures r.0 * scale + r.1 == amount && r.1 < scale
  {
    (amount / scale, amount % scale)
  }

  /** The text `beginAction` puts into the amount field. */
  function Print(amount: nat, digits: nat): string {
    var parts := DivMod(amount, Pow10(digits));
    if digits == 0 then Decimal(parts.0) else Decimal(parts.0) + "." + PadStart(Decimal(parts.1), digits)
  }

  /* The parser. */

  /** What `String.prototype.trim` removes. */
  predicate IsSpace(ch: char) {
    || ch in ['\U{0009}', '\U{000A}', '\U{000B}', '\U{000C}', '\U{000D}', ' ', '\U{00A0}', '\U{1680}']
    || '\U{2000}' <= ch <= '\U{200A}'
    || ch in ['\U{2028}', '\U{2029}', '\U{202F}', '\U{205F}', '\U{3000}', '\U{FEFF}']
  }

  function TrimStart(s: string): string {
    if s != "" && IsSpace(s[0]) then TrimStart(s[1..]) else s
  }

  function TrimEnd(s: string): string {
    if s != "" && IsSpace(s[|s| - 1]) then TrimEnd(s[..|s| - 1]) else s
  }

  function Trim(s: string): string {
    TrimEnd(TrimStart(s))
  }

  /** The index of the first dot, or the length. */
  function DotIndex(s: string): (i: nat)
    ensures i <= |s| && (i < |s| ==> s[i] == '.') && forall j :: 0 <= j < i ==> s[j] != '.'
  {
    if s == "" || s[0] == '.' then 0 else DotIndex(s[1..]) + 1
  }

  /** `/^\d+(?:\.\d+)?$/` */
  predicate IsNumber(s: string) {
    var i := DotIndex(s);
    && i > 0 && AllDigits(s[..i])
    && (i < |s| ==> i + 1 < |s| && AllDigits(s[i + 1..]))
  }

  /** The first `digits` characters of the fraction filled with zeros, or a single zero. */
  function Filled(fraction: string, digits: nat): string {
    var s := (fraction + Zeros(digits))[..digits];
    if s == "" then "0" else s
  }

  /** The three refusals of the parser. */
  datatype Refusal = Malformed | TooManyDigits | OutOfRange

  datatype Parsed = Minor(amount: nat) | Refused(why: Refusal)

  function ToMinorUnits(value: string, digits: nat): Parsed {
    var s := Trim(value);
    if !IsNumber(s) then Refused(Malformed)
    else
      var i := DotIndex(s);
      var whole, fraction := s[..i], if i < |s| then s[i + 1..] else "";
      if |fraction| > digits then Refused(TooManyDigits)
      else
        var minor := Value(whole) * Pow10(digits) + Value(Filled(fraction, digits));
        if minor <= 0 || minor > MAX_MINOR then Refused(OutOfRange) else Minor(minor)
  }

  /* What the text means, independently of the parser. */

  /** The white space and line terminators of ECMAScript, by their code points. */
  predicate Blank(code: int) {
    9 <= code <= 13 || code in {32, 160, 5760, 8232, 8233, 8239, 8287, 12288, 65279} || 8192 <= code <= 8202
  }

  lemma SpacesAreBlank(ch: char)
    ensures IsSpace(ch) <==> Blank(ch as int)
  {
  }

  predicate AllSpaces(s: string) {
    forall i :: 0 <= i < |s| ==> Blank(s[i] as int)
  }

  function Dotted(whole: string, fraction: string): string {
    if fraction == "" then whole else whole + "." + fraction
  }

  /** `value` is a decimal number between spaces. */
  predicate Written(value: string, lead: string, whole: string, fraction: string, trail: string) {
    && AllSpaces(lead) && AllSpaces(trail)
    && whole != "" && AllDigits(whole) && AllDigits(fraction)
    && value == lead + Dotted(whole, fraction) + trail
  }

  /** The number a fraction stands for, digit by digit. */
  function FractionValue(fraction: string): real
    requires AllDigits(fraction)
  {
    if fraction == "" then 0.0
    else (DigitValue(fraction[0]) as real + FractionValue(fraction[1..])) / 10.0
  }

  function ExactValue(whole: string, fraction: string): real
    requires AllDigits(whole) && AllDigits(fraction)
  {
    Value(whole) as real + FractionValue(fraction)
  }

  /** `x` with its decimal point moved `n` places to the right. */
  function Shift(x: real, n: nat): real {
    if n == 0 then x else 10.0 * Shift(x, n - 1)
  }

  /* Values of concatenated digit strings. */

  lemma {:induction false} ValueAppend(a: string, b: string)
    requires AllDigits(a) && AllDigits(b)
    ensures AllDigits(a + b) && Value(a + b) == Value(a) * Pow10(|b|) + Value(b)
  {
    if b == "" {
      assert a + b == a;
    } else {
      var front := b[..|b| - 1];
      ValueAppend(a, front);
      assert (a + b)[..|a + b| - 1] == a + front;
      TenTimes(Value(a), Pow10(|front|));
    }
  }

  lemma {:induction false} ValueOfZeros(n: nat)
    ensures Value(Zeros(n)) == 0
  {
    if n > 0 {
      ValueOfZeros(n - 1);
      assert Zeros(n)[..n - 1] == Zeros(n - 1);
    }
  }

  lemma {:induction false} DecimalLength(n: nat, digits: nat)
    requires n < Pow10(digits) && digits > 0
    ensures |Decimal(n)| <= digits
  {
    if n >= 10 {
      DecimalLength(n / 10, digits - 1);
    }
  }

  /** Padding keeps the value and gives exactly the length asked for. */
  lemma PaddedValue(n: nat, digits: nat)
    requires n < Pow10(digits) && digits > 0
    ensures var s := PadStart(Decimal(n), digits);
            |s| == digits && AllDigits(s) && Value(s) == n
  {
    DecimalLength(n, digits);
    LeadingZeros(digits - |Decimal(n)|, Decimal(n));
  }

  lemma LeadingZeros(k: nat, s: string)
    requires AllDigits(s)
    ensures AllDigits(Zeros(k) + s) && Value(Zeros(k) + s) == Value(s)
    ensures k == 0 ==> Zeros(k) + s == s
  {
    ValueOfZeros(k);
    ValueAppend(Zeros(k), s);
  }

  /* The parser on a written number. */

  lemma {:induction false} TrimStartOf(lead: string, s: string)
    requires AllSpaces(lead) && s != "" && !IsSpace(s[0])
    ensures TrimStart(lead + s) == s
  {
    if lead == "" {
      assert lead + s == s;
    } else {
      SpacesAreBlank(lead[0]);
      TrimStartOf(lead[1..], s);
      assert (lead + s)[1..] == lead[1..] + s;
    }
  }

  lemma {:induction false} TrimEndOf(s: string, trail: string)
    requires AllSpaces(trail) && s != "" && !IsSpace(s[|s| - 1])
    ensures TrimEnd(s + trail) == s
  {
    if trail == "" {
      assert s + trail == s;
    } else {
      var front := trail[..|trail| - 1];
      SpacesAreBlank(trail[|trail| - 1]);
      TrimEndOf(s, front);
      assert (s + trail)[..|s + trail| - 1] == s + front;
    }
  }

  lemma {:induction false} TrimSplits(s: string) returns (lead: string, trail: string)
    ensures AllSpaces(lead) && AllSpaces(trail) && s == lead + Trim(s) + trail
  {
    var rest: string;
    lead, rest := TrimStartSplits(s);
    trail := TrimEndSplits(rest);
    assert lead + (Trim(s) + trail) == lead + Trim(s) + trail;
  }

  lemma {:induction false} TrimStartSplits(s: string) returns (lead: string, rest: string)
    ensures AllSpaces(lead) && s == lead + rest && rest == TrimStart(s)
  {
    if s != "" && IsSpace(s[0]) {
      SpacesAreBlank(s[0]);
      lead, rest := TrimStartSplits(s[1..]);
      lead := [s[0]] + lead;
      assert s == [s[0]] + s[1..];
    } else {
      lead, rest := "", s;
    }
  }

  lemma {:induction false} TrimEndSplits(s: string) returns (trail: string)
    ensures AllSpaces(trail) && s == TrimEnd(s) + trail
  {
    if s != "" && IsSpace(s[|s| - 1]) {
      SpacesAreBlank(s[|s| - 1]);
      trail := TrimEndSplits(s[..|s| - 1]);
      trail := trail + [s[|s| - 1]];
      assert s == s[..|s| - 1] + [s[|s| - 1]];
    } else {
      trail := "";
    }
  }

  lemma DotOfDigits(whole: string, rest: string)
    requires AllDigits(whole) && (rest == "" || rest[0] == '.')
    ensures DotIndex(whole + rest) == |whole|
  {
    var s := whole + rest;
    forall j | 0 <= j < |whole| ensures s[j] != '.' {
      assert s[j] == whole[j] && IsDigit(whole[j]);
    }
    assert rest != "" ==> s[|whole|] == '.';
  }

  lemma TrimOf(lead: string, s: string, trail: string)
    requires AllSpaces(lead) && AllSpaces(trail) && s != "" && !IsSpace(s[0]) && !IsSpace(s[|s| - 1])
    ensures Trim(lead + s + trail) == s
  {
    assert lead + s + trail == lead + (s + trail);
    TrimStartOf(lead, s + trail);
    TrimEndOf(s, trail);
  }

  lemma DottedIsRead(whole: string, fraction: string)
    requires whole != "" && AllDigits(whole) && AllDigits(fraction)
    ensures var s := Dotted(whole, fraction);
            var i := DotIndex(s);
            IsNumber(s) && s[..i] == whole && (if i < |s| then s[i + 1..] else "") == fraction
  {
    var rest := if fraction == "" then "" else "." + fraction;
    assert Dotted(whole, fraction) == whole + rest;
    DotOfDigits(whole, rest);
  }

  /** A written number is recognised, and cut into the digits it was written with. */
  lemma WrittenIsRead(value: string, lead: string, whole: string, fraction: string, trail: string)
    requires Written(value, lead, whole, fraction, trail)
    ensures var s := Trim(value);
            var i := DotIndex(s);
            IsNumber(s) && s[..i] == whole && (if i < |s| then s[i + 1..] else "") == fraction
  {
    var s := Dotted(whole, fraction);
    assert IsDigit(s[0]) && IsDigit(s[|s| - 1]);
    TrimOf(lead, s, trail);
    DottedIsRead(whole, fraction);
  }

  /* Shifting the decimal point. */

  lemma {:induction false} ShiftAdd(x: real, y: real, n: nat)
    ensures Shift(x + y, n) == Shift(x, n) + Shift(y, n)
  {
    if n > 0 {
      ShiftAdd(x, y, n - 1);
    }
  }

  lemma {:induction false} ShiftTenth(x: real, n: nat)
    ensures Shift(x / 10.0, n + 1) == Shift(x, n)
  {
    if n > 0 {
      ShiftTenth(x, n - 1);
    }
  }

  lemma {:induction false} ShiftWhole(m: nat, n: nat)
    ensures Shift(m as real, n) == (m * Pow10(n)) as real
  {
    if n > 0 {
      ShiftWhole(m, n - 1);
      TenTimes(m, Pow10(n - 1));
    }
  }

  lemma TenTimes(m: nat, p: nat)
    ensures m * (10 * p) == 10 * (m * p)
  {
  }

  lemma ValueFromFront(s: string)
    requires AllDigits(s) && s != ""
    ensures Value(s) == DigitValue(s[0]) * Pow10(|s| - 1) + Value(s[1..])
  {
    var first, rest := [s[0]], s[1..];
    assert first + rest == s && first[..0] == "";
    ValueAppend(first, rest);
  }

  /** Filling a fraction with zeros shifts its decimal point, exactly. */
  lemma {:induction false} ShiftedFraction(fraction: string, digits: nat)
    requires AllDigits(fraction) && |fraction| <= digits
    ensures var s := fraction + Zeros(digits - |fraction|);
            AllDigits(s) && Value(s) as real == Shift(FractionValue(fraction), digits)
  {
    var s := fraction + Zeros(digits - |fraction|);
    if fraction == "" {
      assert s == Zeros(digits);
      ValueOfZeros(digits);
      ShiftWhole(0, digits);
    } else {
      var d, rest := DigitValue(fraction[0]), fraction[1..];
      ShiftedFraction(rest, digits - 1);
      ValueFromFront(s);
      assert s[1..] == rest + Zeros(digits - 1 - |rest|);
      ShiftTenth(d as real + FractionValue(rest), digits - 1);
      ShiftAdd(d as real, FractionValue(rest), digits - 1);
      ShiftWhole(d, digits - 1);
    }
  }

  lemma ShiftedNumber(whole: string, fraction: string, digits: nat)
    requires AllDigits(whole) && AllDigits(fraction) && |fraction| <= digits
    ensures AllDigits(Filled(fraction, digits))
    ensures (Value(whole) * Pow10(digits) + Value(Filled(fraction, digits))) as real
         == Shift(ExactValue(whole, fraction), digits)
  {
    var s := fraction + Zeros(digits - |fraction|);
    assert (fraction + Zeros(digits))[..digits] == s;
    ShiftedFraction(fraction, digits);
    ShiftAdd(Value(whole) as real, FractionValue(fraction), digits);
    ShiftWhole(Value(whole), digits);
    if digits == 0 {
      assert Value("0") == 0 by { ValueOfZeros(1); assert Zeros(1) == "0"; }
    }
  }

  /** Nothing is filled into a fraction that has all its digits. */
  lemma FullFraction(fraction: string, digits: nat)
    requires AllDigits(fraction) && |fraction| == digits
    ensures AllDigits(Filled(fraction, digits)) && Value(Filled(fraction, digits)) == Value(fraction)
  {
    assert (fraction + Zeros(digits))[..digits] == fraction;
    if digits == 0 {
      assert Value("0") == 0 by { ValueOfZeros(1); assert Zeros(1) == "0"; }
    }
  }

  lemma ReadNumber(value: string, lead: string, whole: string, fraction: string, trail: string, digits: nat,
                   minor: nat)
    requires Written(value, lead, whole, fraction, trail)
    requires |fraction| <= digits && AllDigits(Filled(fraction, digits))
    requires minor == Value(whole) * Pow10(digits) + Value(Filled(fraction, digits))
    ensures ToMinorUnits(value, digits) == if 1 <= minor <= MAX_MINOR then Minor(minor) else Refused(OutOfRange)
  {
    WrittenIsRead(value, lead, whole, fraction, trail);
  }

  /* Main results. */

  /** The number a text stands for, once scaled, is `minor`, which is in the range. */
  predicate Denotes(whole: string, fraction: string, digits: nat, minor: nat)
    requires AllDigits(whole) && AllDigits(fraction)
  {
    && |fraction| <= digits
    && minor as real == Shift(ExactValue(whole, fraction), digits)
    && 1 <= minor <= 100_000_000
  }

  /** On every written number the parser gives the exact value scaled to minor units, or refuses:
      it never rounds. */
  lemma ParsesExactly(value: string, lead: string, whole: string, fraction: string, trail: string, digits: nat,
                      minor: nat)
    requires Written(value, lead, whole, fraction, trail)
    ensures ToMinorUnits(value, digits) == Minor(minor) <==> Denotes(whole, fraction, digits, minor)
    ensures ToMinorUnits(value, digits) == Refused(TooManyDigits) <==> |fraction| > digits
    ensures ToMinorUnits(value, digits) != Refused(Malformed)
  {
    if |fraction| <= digits {
      ShiftedNumber(whole, fraction, digits);
      ReadNumber(value, lead, whole, fraction, trail, digits,
                 Value(whole) * Pow10(digits) + Value(Filled(fraction, digits)));
    } else {
      WrittenIsRead(value, lead, whole, fraction, trail);
    }
  }

  lemma NumberIsWritten(value: string)
    returns (lead: string, whole: string, fraction: string, trail: string)
    requires IsNumber(Trim(value))
    ensures Written(value, lead, whole, fraction, trail)
  {
    lead, trail := TrimSplits(value);
    whole, fraction := NumberParts(Trim(value));
  }

  lemma NumberParts(s: string) returns (whole: string, fraction: string)
    requires IsNumber(s)
    ensures whole != "" && AllDigits(whole) && AllDigits(fraction) && s == Dotted(whole, fraction)
  {
    var i := DotIndex(s);
    whole, fraction := s[..i], if i < |s| then s[i + 1..] else "";
  }

  /** The parser accepts exactly the decimal numbers, spaces around them allowed, with at most
      `digits` fraction digits whose value lies in the range, and returns that value. */
  lemma AcceptsExactly(value: string, digits: nat, minor: nat)
    ensures ToMinorUnits(value, digits) == Minor(minor) <==>
            exists lead, whole, fraction, trail ::
              Written(value, lead, whole, fraction, trail) && Denotes(whole, fraction, digits, minor)
  {
    if ToMinorUnits(value, digits) == Minor(minor) {
      var lead, whole, fraction, trail := NumberIsWritten(value);
      ParsesExactly(value, lead, whole, fraction, trail, digits, minor);
    }
    if lead, whole, fraction, trail :|
         Written(value, lead, whole, fraction, trail) && Denotes(whole, fraction, digits, minor) {
      ParsesExactly(value, lead, whole, fraction, trail, digits, minor);
    }
  }

  /** A text is called malformed exactly when it is not a decimal number between spaces. */
  lemma MalformedExactly(value: string, digits: nat)
    ensures ToMinorUnits(value, digits) == Refused(Malformed) <==>
            !exists lead, whole, fraction, trail :: Written(value, lead, whole, fraction, trail)
  {
    if IsNumber(Trim(value)) {
      var lead, whole, fraction, trail := NumberIsWritten(value);
    }
    if lead, whole, fraction, trail :| Written(value, lead, whole, fraction, trail) {
      ParsesExactly(value, lead, whole, fraction, trail, digits, 0);
    }
  }

  /** What the printer writes, cut into the parts the parser sees. */
  lemma PrintedParts(amount: nat, digits: nat) returns (whole: string, fraction: string)
    ensures Written(Print(amount, digits), "", whole, fraction, "")
    ensures |fraction| == digits && AllDigits(Filled(fraction, digits))
    ensures Value(whole) * Pow10(digits) + Value(Filled(fraction, digits)) == amount
  {
    var parts := DivMod(amount, Pow10(digits));
    whole := Decimal(parts.0);
    fraction := if digits == 0 then "" else PadStart(Decimal(parts.1), digits);
    if digits > 0 {
      PaddedValue(parts.1, digits);
    }
    FullFraction(fraction, digits);
    assert Print(amount, digits) == "" + Dotted(whole, fraction) + "";
  }

  /** What the printer shows is read back as the same amount, for every number of fraction digits. */
  lemma RoundTrip(amount: nat, digits: nat)
    requires 1 <= amount <= 100_000_000
    ensures ToMinorUnits(Print(amount, digits), digits) == Minor(amount)
  {
    var whole, fraction := PrintedParts(amount, digits);
    ReadNumber(Print(amount, digits), "", whole, fraction, "", digits, amount);
  }
}
