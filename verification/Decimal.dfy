/** Decimal numbers as `to_string` prints and `parse::<i64>` reads them. */
module Decimal {
  import opened Options
  import opened Text

  const MINUS: bv8 := 0x2D
  const PLUS: bv8 := 0x2B

  const DIGITS: Bytes := [0x30, 0x31, 0x32, 0x33, 0x34, 0x35, 0x36, 0x37, 0x38, 0x39]

  function DigitValue(c: bv8): Option<nat> {
    if c == 0x30 then Some(0) else if c == 0x31 then Some(1) else if c == 0x32 then Some(2)
    else if c == 0x33 then Some(3) else if c == 0x34 then Some(4) else if c == 0x35 then Some(5)
    else if c == 0x36 then Some(6) else if c == 0x37 then Some(7) else if c == 0x38 then Some(8)
    else if c == 0x39 then Some(9) else None
  }

  function PrintNat(n: nat): (s: Bytes)
    ensures s != []
  {
    Numeral(n, DIGITS)
  }

  function Print(n: int): Bytes {
    if n < 0 then [MINUS] + PrintNat(-n) else PrintNat(n)
  }

  /** The value of a run of digits; None if another byte is among them. */
  function Digits(s: Bytes): Option<nat> {
    if s == [] then Some(0)
    else
      var front, last := Digits(s[..|s| - 1]), DigitValue(s[|s| - 1]);
      if front.None? || last.None? then None else Some(10 * front.value + last.value)
  }

  const MIN64 := -0x8000_0000_0000_0000
  const MAX64 := 0x7FFF_FFFF_FFFF_FFFF

  /** An optional sign and at least one digit, within the 64-bit range. */
  function Parse(s: Bytes): Option<int> {
    if s == [] then None
    else
      var negative := s[0] == MINUS;
      var digits := if negative || s[0] == PLUS then s[1..] else s;
      if digits == [] || Digits(digits).None? then None
      else
        var value: int := Digits(digits).value;
        var n := if negative then -value else value;
        if MIN64 <= n <= MAX64 then Some(n) else None
  }

  lemma {:induction false} DigitsOfPrint(n: nat)
    ensures Digits(PrintNat(n)) == Some(n)
    decreases n
  {
    if n < 10 {
      OneMoreDigit([], 0, n);
      assert [] + [DIGITS[n]] == PrintNat(n);
    } else {
      hide DigitValue;
      DigitsOfPrint(n / 10);
      OneMoreDigit(PrintNat(n / 10), n / 10, n % 10);
    }
  }

  lemma DigitRead(d: nat)
    requires d < 10
    ensures DigitValue(DIGITS[d]) == Some(d)
  {
  }

  lemma OneMoreDigit(front: Bytes, n: nat, d: nat)
    requires Digits(front) == Some(n) && d < 10
    ensures Digits(front + [DIGITS[d]]) == Some(10 * n + d)
  {
    DigitRead(d);
  }

  lemma NoSignPrinted(n: nat)
    ensures MINUS !in PrintNat(n) && PrintNat(n)[0] != PLUS
  {
    if MINUS in PrintNat(n) {
      NumeralDigits(n, DIGITS, MINUS);
    }
    NumeralDigits(n, DIGITS, PrintNat(n)[0]);
  }

  /** Reading what was printed gives the number back, exactly for the numbers that fit 64 bits. */
  lemma ParsePrint(n: int)
    ensures Parse(Print(n)) == if MIN64 <= n <= MAX64 then Some(n) else None
  {
    hide Digits, PrintNat, Parse;
    var magnitude := if n < 0 then -n else n;
    DigitsOfPrint(magnitude);
    NoSignPrinted(magnitude);
    assert PrintNat(magnitude)[0] in PrintNat(magnitude);
    ParseBody(if n < 0 then [0x2D] else [], PrintNat(magnitude), magnitude);
    assert Print(n) == (if n < 0 then [0x2D] else []) + PrintNat(magnitude);
  }

  lemma PrintInjective(m: nat, n: nat)
    requires PrintNat(m) == PrintNat(n)
    ensures m == n
  {
    DigitsOfPrint(m);
    DigitsOfPrint(n);
  }

  /** The text of a participant id: `p-`, the user, a hyphen, the time of joining. */
  function ParticipantText(user: Bytes, joinedAt: nat): Bytes {
    [0x70, MINUS] + user + [MINUS] + PrintNat(joinedAt)
  }

  /** Digits contain no hyphen, so the last hyphen of the text ends the user, whatever the user contains. */
  lemma ParticipantTextInjective(u: Bytes, m: nat, v: Bytes, n: nat)
    requires ParticipantText(u, m) == ParticipantText(v, n)
    ensures u == v && m == n
  {
    NoSignPrinted(m);
    NoSignPrinted(n);
    SameTail([0x70, MINUS] + u, PrintNat(m), [0x70, MINUS] + v, PrintNat(n));
    assert ([0x70, MINUS] + u)[2..] == u && ([0x70, MINUS] + v)[2..] == v;
    PrintInjective(m, n);
  }

  /** The last hyphen of `s` is where the tail without hyphens begins. */
  lemma HyphenNotAfter(s: Bytes, a: Bytes, x: Bytes, b: Bytes, y: Bytes)
    requires s == a + [MINUS] + x && s == b + [MINUS] + y && MINUS !in x
    ensures |b| <= |a|
  {
    assert s[|b|] == MINUS;
    assert forall i :: |a| < i < |s| ==> s[i] == x[i - |a| - 1];
  }

  lemma SameTail(a: Bytes, x: Bytes, b: Bytes, y: Bytes)
    requires a + [MINUS] + x == b + [MINUS] + y && MINUS !in x && MINUS !in y
    ensures a == b && x == y
  {
    var s := a + [MINUS] + x;
    HyphenNotAfter(s, a, x, b, y);
    HyphenNotAfter(s, b, y, a, x);
    assert s[..|a|] == a && s[..|b|] == b;
    assert s[|a| + 1..] == x && s[|b| + 1..] == y;
  }

  // ---- everything that parses --------------------------------------------------------------------------------

  function Zeros(k: nat): Bytes {
    seq(k, _ => 0x30)
  }

  lemma DigitIs(c: bv8)
    ensures DigitValue(c).Some? <==> 0x30 <= c <= 0x39
    ensures DigitValue(c).Some? ==> DigitValue(c).value < 10 && c == DIGITS[DigitValue(c).value]
  {
  }

  /** A run of digits is the numeral of its value behind some zeros. */
  lemma {:induction false} DigitsAre(s: Bytes) returns (k: nat)
    requires s != [] && Digits(s).Some?
    ensures s == Zeros(k) + PrintNat(Digits(s).value)
    decreases |s|
  {
    hide DigitValue;
    var n := |s| - 1;
    var last := DigitValue(s[n]).value;
    DigitIs(s[n]);
    k := 0;
    if n == 0 {
      assert s[..0] == [] && s == [DIGITS[last]];
      assert s == Zeros(0) + PrintNat(last);
    } else {
      var front := Digits(s[..n]).value;
      k := DigitsAre(s[..n]);
      assert s == Zeros(k) + PrintNat(front) + [DIGITS[last]];
      k := if front == 0 then k + 1 else k;
      OneMoreZero(if front == 0 then k - 1 else k, front, last);
    }
  }

  /** A further digit extends the numeral, or stands alone behind one more zero. */
  lemma OneMoreZero(k: nat, front: nat, last: nat)
    requires last < 10
    ensures Zeros(k) + PrintNat(front) + [DIGITS[last]] ==
            Zeros(if front == 0 then k + 1 else k) + PrintNat(10 * front + last)
  {
    if front == 0 {
      assert PrintNat(0) == [0x30] && PrintNat(last) == [DIGITS[last]];
    } else {
      var v := 10 * front + last;
      assert v / 10 == front && v % 10 == last;
      assert PrintNat(v) == PrintNat(front) + [DIGITS[last]];
    }
  }

  lemma {:induction false} LeadingZeros(k: nat, s: Bytes)
    requires Digits(s).Some?
    ensures Digits(Zeros(k) + s) == Digits(s)
    decreases |s|
  {
    if s == [] {
      ZerosValue(k);
      assert Zeros(k) + s == Zeros(k);
    } else {
      var n := |s| - 1;
      LeadingZeros(k, s[..n]);
      assert (Zeros(k) + s)[..k + n] == Zeros(k) + s[..n];
    }
  }

  lemma {:induction false} ZerosValue(k: nat)
    ensures Digits(Zeros(k)) == Some(0)
  {
    if k > 0 {
      ZerosValue(k - 1);
      assert Zeros(k)[..k - 1] == Zeros(k - 1);
    }
  }

  /** The number that a sign, plus or none or minus, makes of `n`. */
  function WithSign(sign: Bytes, n: int): int {
    if sign == [0x2D] then -n else n
  }

  predicate IsSign(sign: Bytes) {
    sign == [] || sign == [0x2B] || sign == [0x2D]
  }

  lemma ParseBody(sign: Bytes, body: Bytes, n: nat)
    requires IsSign(sign) && body != [] && body[0] != MINUS && body[0] != PLUS && Digits(body) == Some(n)
    ensures Parse(sign + body) == if MIN64 <= WithSign(sign, n) <= MAX64 then Some(WithSign(sign, n)) else None
  {
    hide Digits;
    var s := sign + body;
    if sign == [] {
      assert s == body;
    } else {
      assert s[1..] == body && s[0] == sign[0];
    }
  }

  lemma BodyStarts(k: nat, n: nat)
    ensures var body := Zeros(k) + PrintNat(n); body[0] != MINUS && body[0] != PLUS && Digits(body) == Some(n)
  {
    hide Digits;
    DigitsOfPrint(n);
    LeadingZeros(k, PrintNat(n));
    NoSignPrinted(n);
    assert PrintNat(n)[0] in PrintNat(n);
    assert (Zeros(k) + PrintNat(n))[0] == if k > 0 then 0x30 else PrintNat(n)[0];
  }

  /** An optional plus or minus, any number of zeros, and the numeral are read as the number, if it fits 64 bits. */
  lemma ParseSigned(sign: Bytes, k: nat, n: nat)
    requires IsSign(sign)
    ensures Parse(sign + Zeros(k) + PrintNat(n)) ==
            if -0x8000_0000_0000_0000 <= WithSign(sign, n) <= 0x7FFF_FFFF_FFFF_FFFF then Some(WithSign(sign, n))
                else None
  {
    hide Digits, Parse, PrintNat;
    BodyStarts(k, n);
    ParseBody(sign, Zeros(k) + PrintNat(n), n);
    assert sign + Zeros(k) + PrintNat(n) == sign + (Zeros(k) + PrintNat(n));
  }

  /** And nothing else is read. */
  lemma ParsesOnlyThat(s: Bytes) returns (sign: Bytes, k: nat, n: nat)
    requires Parse(s).Some?
    ensures IsSign(sign) && s == sign + Zeros(k) + PrintNat(n) && Parse(s).value == WithSign(sign, n)
  {
    hide Digits, PrintNat;
    sign := if s[0] == MINUS then [0x2D] else if s[0] == PLUS then [0x2B] else [];
    var body := s[|sign|..];
    assert s == sign + body;
    n := Digits(body).value;
    k := DigitsAre(body);
    assert sign + Zeros(k) + PrintNat(n) == sign + (Zeros(k) + PrintNat(n));
  }
}
