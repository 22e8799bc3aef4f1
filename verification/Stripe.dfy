/** Checking a `Stripe-Signature` header against a request body. */
module Stripe {
  import opened Options
  import opened Text
  import opened Decimal
  import Hex

  const COMMA: bv8 := 0x2C
  const EQUALS: bv8 := 0x3D
  const DOT: bv8 := 0x2E
  const T: Bytes := [0x74]
  const V1: Bytes := [0x76, 0x31]
  const TOLERANCE := 300

  // ---- 64-bit arithmetic ----------------------------------------------------------------------------

  const TWO64 := 0x1_0000_0000_0000_0000

  /** The 64-bit two's complement value of `x`. */
  function Wrap(x: int): (r: int)
    ensures MIN64 <= r <= MAX64
  {
    var m := x % TWO64;
    if m > MAX64 then m - TWO64 else m
  }

  /** `i64::abs`, which has no positive counterpart for the least number. */
  function WrappingAbs(x: int): int {
    Wrap(if x < 0 then -x else x)
  }

  /** `(now - t).abs() <= 300` as a release build computes it. */
  predicate Fresh(now: int, t: int) {
    WrappingAbs(Wrap(now - t)) <= TOLERANCE
  }

  function Distance(now: int, t: int): nat {
    if now < t then t - now else now - t
  }

  /** The tolerance test means what it says, except for timestamps some 292 billion years away. */
  lemma FreshIs(now: int, t: int)
    requires MIN64 <= now <= MAX64 && MIN64 <= t <= MAX64
    ensures Fresh(now, t) <==>
              || Distance(now, t) <= TOLERANCE || Distance(now, t) == TWO64 / 2
              || Distance(now, t) >= TWO64 - TOLERANCE
  {
  }

  // ---- constant_time_eq -------------------------------------------------------------------------------

  /** `zip` and `fold` with `acc | (x ^ y)`. */
  function XorOr(a: Bytes, b: Bytes, acc: bv8): bv8
    requires |a| == |b|
    decreases |a|
  {
    if a == [] then acc else XorOr(a[1..], b[1..], acc | (a[0] ^ b[0]))
  }

  predicate ConstantTimeEq(a: Bytes, b: Bytes) {
    |a| == |b| && XorOr(a, b, 0) == 0
  }

  lemma OrXorZero(acc: bv8, x: bv8, y: bv8)
    ensures acc | (x ^ y) == 0 <==> acc == 0 && x == y
  {
  }

  lemma {:induction false} XorOrZero(a: Bytes, b: Bytes, acc: bv8)
    requires |a| == |b|
    ensures XorOr(a, b, acc) == 0 <==> acc == 0 && a == b
    decreases |a|
  {
    if a != [] {
      OrXorZero(acc, a[0], b[0]);
      XorOrZero(a[1..], b[1..], acc | (a[0] ^ b[0]));
      assert a == [a[0]] + a[1..] && b == [b[0]] + b[1..];
    }
  }

  /** The fold is equality. */
  lemma ConstantTimeEqIsEquality(a: Bytes, b: Bytes)
    ensures ConstantTimeEq(a, b) <==> a == b
  {
    if |a| == |b| {
      XorOrZero(a, b, 0);
    }
  }

  // ---- the header ------------------------------------------------------------------------------------------

  /** The last `t` decides, even if it does not parse. */
  function Timestamp(parts: seq<Bytes>): Option<int> {
    if parts == [] then None
    else
      var item := SplitOnce(parts[|parts| - 1], EQUALS);
      if item.Some? && item.value.0 == T then Parse(item.value.1) else Timestamp(parts[..|parts| - 1])
  }

  function Signatures(parts: seq<Bytes>): seq<Bytes> {
    if parts == [] then []
    else
      var item := SplitOnce(parts[|parts| - 1], EQUALS);
      Signatures(parts[..|parts| - 1]) + if item.Some? && item.value.0 == V1 then [item.value.1] else []
  }

  type Mac = (Bytes, Bytes) -> Bytes       // HMAC-SHA256 of a key and a message

  function Expected(mac: Mac, secret: Bytes, payload: Bytes, t: int): Bytes {
    Hex.Lower(mac(secret, Print(t) + [DOT] + payload))
  }

  /** What verify_webhook accepts, read off the parts of the header. */
  predicate Accepts(mac: Mac, secret: Bytes, payload: Bytes, header: Bytes, now: int) {
    var t, signatures := Timestamp(Split(header, COMMA)), Signatures(Split(header, COMMA));
    t.Some? && Fresh(now, t.value) && Expected(mac, secret, payload, t.value) in signatures
  }

  method VerifyWebhook(mac: Mac, secret: Bytes, payload: Bytes, header: Bytes, now: int) returns (accepted: bool)
    ensures accepted <==> Accepts(mac, secret, payload, header, now)
  {
    var timestamp: Option<int> := None;
    var signatures: seq<Bytes> := [];
    var parts := Split(header, COMMA);
    var i := 0;
    while i < |parts|
      invariant i <= |parts|
      invariant timestamp == Timestamp(parts[..i]) && signatures == Signatures(parts[..i])
    {
      assert parts[..i + 1][..i] == parts[..i];
      var item := SplitOnce(parts[i], EQUALS);
      if item.Some? && item.value.0 == T {
        timestamp := Parse(item.value.1);
      } else if item.Some? && item.value.0 == V1 {
        signatures := signatures + [item.value.1];
      }
      i := i + 1;
    }
    assert parts[..i] == parts;
    if timestamp.None? || !Fresh(now, timestamp.value) {
      return false;
    }
    var expected := Hex.HexLower(mac(secret, Print(timestamp.value) + [DOT] + payload));
    accepted := AnyEqual(signatures, expected);
  }

  method AnyEqual(signatures: seq<Bytes>, expected: Bytes) returns (found: bool)
    ensures found <==> expected in signatures
  {
    var i := 0;
    while i < |signatures|
      invariant i <= |signatures| && expected !in signatures[..i]
    {
      ConstantTimeEqIsEquality(signatures[i], expected);
      if ConstantTimeEq(signatures[i], expected) {
        return true;
      }
      assert signatures[..i + 1] == signatures[..i] + [signatures[i]];
      i := i + 1;
    }
    assert signatures[..i] == signatures;
    return false;
  }

  // ---- headers with whatever parts -------------------------------------------------------------------------------

  datatype Part = Pair(name: Bytes, value: Bytes) | Bare(text: Bytes)

  function PartText(p: Part): Bytes {
    match p
    case Pair(name, value) => name + [EQUALS] + value
    case Bare(text) => text
  }

  function PartTexts(ps: seq<Part>): (r: seq<Bytes>)
    ensures |r| == |ps| && forall i :: 0 <= i < |r| ==> r[i] == PartText(ps[i])
  {
    seq(|ps|, i requires 0 <= i < |ps| => PartText(ps[i]))
  }

  predicate Clean(p: Part) {
    match p
    case Pair(name, value) => EQUALS !in name && COMMA !in name && COMMA !in value
    case Bare(text) => EQUALS !in text && COMMA !in text
  }

  predicate Named(p: Part, name: Bytes) {
    p.Pair? && p.name == name
  }

  /** The values of the parts of that name, in order. */
  function ValuesOf(ps: seq<Part>, name: Bytes): seq<Bytes> {
    if ps == [] then [] else (if Named(ps[0], name) then [ps[0].value] else []) + ValuesOf(ps[1..], name)
  }

  lemma {:induction false} ValuesOfFront(ps: seq<Part>, name: Bytes)
    requires ps != []
    ensures var n := |ps| - 1;
            ValuesOf(ps, name) == ValuesOf(ps[..n], name) + if Named(ps[n], name) then [ps[n].value] else []
  {
    var n := |ps| - 1;
    if n > 0 {
      ValuesOfFront(ps[1..], name);
      assert ps[1..][..n - 1] == ps[..n][1..];
    } else {
      assert ps[1..] == [];
    }
  }

  lemma PartSplits(p: Part)
    requires Clean(p)
    ensures SplitOnce(PartText(p), EQUALS) == if p.Pair? then Some((p.name, p.value)) else None
    ensures COMMA !in PartText(p)
  {
    match p
    case Pair(name, value) => SplitOnceAt(name, value, EQUALS);
    case Bare(text) => SplitOnceNowhere(text, EQUALS);
  }

  lemma OnePart(front: seq<Bytes>, p: Part)
    requires Clean(p)
    ensures Signatures(front + [PartText(p)]) == Signatures(front) + if Named(p, V1) then [p.value] else []
    ensures Timestamp(front + [PartText(p)]) == if Named(p, T) then Parse(p.value) else Timestamp(front)
  {
    hide Parse, SplitOnce, PartText, Clean;
    PartSplits(p);
    assert (front + [PartText(p)])[..|front|] == front;
  }

  lemma NoParts()
    ensures Signatures([]) == [] && Timestamp([]) == None && ValuesOf([], V1) == [] && ValuesOf([], T) == []
  {
  }

  lemma TextsSplit(ps: seq<Part>)
    requires ps != []
    ensures var n := |ps| - 1; PartTexts(ps) == PartTexts(ps[..n]) + [PartText(ps[n])]
  {
  }

  /** The last `t` is the timestamp, the `v1`s are the signatures, and the rest does not matter. */
  lemma {:induction false} PartsAre(ps: seq<Part>)
    requires forall p | p in ps :: Clean(p)
    ensures Signatures(PartTexts(ps)) == ValuesOf(ps, V1)
    ensures Timestamp(PartTexts(ps)) ==
            (if ValuesOf(ps, T) == [] then None else Parse(ValuesOf(ps, T)[|ValuesOf(ps, T)| - 1]))
  {
    hide Parse, PartText, Clean, Timestamp, Signatures, ValuesOf, Named, PartTexts;
    if ps == [] {
      NoParts();
      assert PartTexts(ps) == [];
    } else {
      var n := |ps| - 1;
      PartsAre(ps[..n]);
      ValuesOfFront(ps, T);
      ValuesOfFront(ps, V1);
      OnePart(PartTexts(ps[..n]), ps[n]);
      TextsSplit(ps);
    }
  }

  lemma TextsClean(ps: seq<Part>)
    requires forall p | p in ps :: Clean(p)
    ensures forall text | text in PartTexts(ps) :: COMMA !in text
  {
    forall i | 0 <= i < |ps|
      ensures COMMA !in PartTexts(ps)[i]
    {
      PartSplits(ps[i]);
    }
  }

  /** What is signed: the timestamp as it is printed, a full stop, and the payload. */
  lemma SignedIs(t: int, payload: Bytes, u: int, other: Bytes)
    ensures Print(t) + [0x2E] + payload == Print(u) + [0x2E] + other <==> t == u && payload == other
  {
    if Print(t) + [0x2E] + payload == Print(u) + [0x2E] + other {
      PrintNoDot(t);
      PrintNoDot(u);
      SplitOnceAt(Print(t), payload, 0x2E);
      SplitOnceAt(Print(u), other, 0x2E);
      ParseAny(t, u);
    }
  }

  lemma PrintNoDot(t: int)
    ensures 0x2E !in Print(t)
  {
    var n := if t < 0 then -t else t;
    if 0x2E in PrintNat(n) {
      NumeralDigits(n, DIGITS, 0x2E);
    }
  }

  lemma ParseAny(t: int, u: int)
    requires Print(t) == Print(u)
    ensures t == u
  {
    NoSignPrinted(if t < 0 then -t else t);
    NoSignPrinted(if u < 0 then -u else u);
    assert Print(t)[0] == MINUS <==> t < 0 by {
      assert t >= 0 ==> Print(t)[0] in PrintNat(t);
    }
    assert Print(u)[0] == MINUS <==> u < 0 by {
      assert u >= 0 ==> Print(u)[0] in PrintNat(u);
    }
    if t < 0 {
      assert Print(t)[1..] == PrintNat(-t) && Print(u)[1..] == PrintNat(-u);
      PrintInjective(-t, -u);
    } else {
      PrintInjective(t, u);
    }
  }

  /**
   * A header of any parts is accepted exactly if its last `t` is a number `t` that passes the tolerance test, and one
   * of its `v1`s reads as the MAC of that number, a full stop and the payload, printed in lower case.
   */
  lemma AcceptsParts(mac: Mac, secret: Bytes, payload: Bytes, ps: seq<Part>, now: int)
    requires ps != [] && (forall p | p in ps :: Clean(p)) && MIN64 <= now <= MAX64
    ensures var times := ValuesOf(ps, [0x74]);
            Accepts(mac, secret, payload, Join(PartTexts(ps), 0x2C), now) <==>
            && times != [] && Parse(times[|times| - 1]).Some?
            && var t := Parse(times[|times| - 1]).value;
               && (Distance(now, t) <= 300 || Distance(now, t) == TWO64 / 2 || Distance(now, t) >= TWO64 - 300)
               && exists s | s in ValuesOf(ps, [0x76, 0x31]) ::
                    && Hex.Unhex(s) == Some(mac(secret, Print(t) + [0x2E] + payload))
                    && forall c | c in s :: Hex.IsLower(c)
  {
    hide Fresh, Parse, Print, PartTexts, ValuesOf, Clean, Hex.Lower, Hex.Unhex, Hex.IsLower;
    PartsAre(ps);
    TextsClean(ps);
    SplitJoin(PartTexts(ps), COMMA);
    var times := ValuesOf(ps, T);
    if times != [] && Parse(times[|times| - 1]).Some? {
      var t := Parse(times[|times| - 1]).value;
      ParseFits(times[|times| - 1]);
      FreshIs(now, t);
      var message := Print(t) + [DOT] + payload;
      assert message == Print(t) + [0x2E] + payload;
      forall s | s in ValuesOf(ps, V1)
        ensures s == Expected(mac, secret, payload, t) <==>
                  Hex.Unhex(s) == Some(mac(secret, message)) && forall c | c in s :: Hex.IsLower(c)
      {
        Hex.LowerIs(s, mac(secret, message));
      }
    }
  }

  lemma ParseFits(s: Bytes)
    ensures Parse(s).Some? ==> MIN64 <= Parse(s).value <= MAX64
  {
  }

  /** The header that Stripe sends: the time and its signatures. */
  function PrintedHeader(t: int, signatures: seq<Bytes>): Bytes {
    Join(PartTexts(PrintedParts(t, signatures)), COMMA)
  }

  function PrintedParts(t: int, signatures: seq<Bytes>): (r: seq<Part>)
    ensures |r| == 1 + |signatures| && r[0] == Pair(T, Print(t))
    ensures forall i :: 0 <= i < |signatures| ==> r[i + 1] == Pair(V1, signatures[i])
  {
    [Pair(T, Print(t))] + seq(|signatures|, i requires 0 <= i < |signatures| => Pair(V1, signatures[i]))
  }

  lemma {:induction false} OnlySignatures(ps: seq<Part>, signatures: seq<Bytes>)
    requires |ps| == |signatures| && forall i :: 0 <= i < |ps| ==> ps[i] == Pair(V1, signatures[i])
    ensures ValuesOf(ps, V1) == signatures && ValuesOf(ps, T) == []
    decreases |ps|
  {
    if ps != [] {
      OnlySignatures(ps[1..], signatures[1..]);
      assert V1 != T && signatures == [signatures[0]] + signatures[1..];
    }
  }

  lemma OneTime(p: Part, rest: seq<Part>)
    requires Named(p, T)
    ensures ValuesOf([p] + rest, T) == [p.value] + ValuesOf(rest, T) && ValuesOf([p] + rest, V1) == ValuesOf(rest, V1)
  {
    assert ([p] + rest)[1..] == rest && T != V1;
  }

  lemma PrintedValues(t: int, signatures: seq<Bytes>)
    requires forall s | s in signatures :: COMMA !in s
    ensures var ps := PrintedParts(t, signatures);
            ValuesOf(ps, T) == [Print(t)] && ValuesOf(ps, V1) == signatures && forall p | p in ps :: Clean(p)
  {
    hide Print, ValuesOf;
    var ps := PrintedParts(t, signatures);
    OnlySignatures(ps[1..], signatures);
    OneTime(ps[0], ps[1..]);
    assert ps == [ps[0]] + ps[1..];
    PrintClean(t);
  }

  lemma PrintClean(t: int)
    ensures COMMA !in Print(t)
  {
    PrintedNoComma(if t < 0 then -t else t);
  }

  lemma PrintedNoComma(n: nat)
    ensures COMMA !in PrintNat(n)
  {
    if COMMA in PrintNat(n) {
      NumeralDigits(n, DIGITS, COMMA);
    }
  }

  /** Reading a printed header gives back its timestamp, if it fits 64 bits, and its signatures, in order. */
  lemma HeaderRoundTrip(t: int, signatures: seq<Bytes>)
    requires forall s | s in signatures :: COMMA !in s
    ensures var parts := Split(PrintedHeader(t, signatures), COMMA);
            && Timestamp(parts) == (if MIN64 <= t <= MAX64 then Some(t) else None)
            && Signatures(parts) == signatures
  {
    hide Parse, Print;
    var ps := PrintedParts(t, signatures);
    PrintedValues(t, signatures);
    PartsAre(ps);
    TextsClean(ps);
    ParsePrint(t);
    SplitJoin(PartTexts(ps), COMMA);
  }

  /**
   * A printed header is accepted exactly when its time passes the tolerance test and one of its signatures reads as the
   * MAC of the time, a full stop and the payload, in lower case.
   */
  lemma AcceptsPrinted(mac: Mac, secret: Bytes, payload: Bytes, t: int, signatures: seq<Bytes>, now: int)
    requires MIN64 <= now <= MAX64 && forall s | s in signatures :: COMMA !in s
    ensures Accepts(mac, secret, payload, PrintedHeader(t, signatures), now) <==>
            && MIN64 <= t <= MAX64
            && (Distance(now, t) <= 300 || Distance(now, t) == TWO64 / 2 || Distance(now, t) >= TWO64 - 300)
            && exists s | s in signatures ::
                 && Hex.Unhex(s) == Some(mac(secret, Print(t) + [0x2E] + payload))
                 && forall c | c in s :: Hex.IsLower(c)
  {
    hide Parse, Print, Accepts;
    PrintedValues(t, signatures);
    ParsePrint(t);
    AcceptsParts(mac, secret, payload, PrintedParts(t, signatures), now);
  }

  /** The signature of a message: its MAC in lower-case hexadecimal digits. */
  function Signed(mac: Mac, secret: Bytes, t: int, payload: Bytes): Bytes {
    Hex.Lower(mac(secret, Print(t) + [0x2E] + payload))
  }

  /**
   * A header signed for one payload is accepted for another, within the tolerance, exactly if the MACs of the two
   * messages are the same; that the payloads are is enough. For times less than 2^63 seconds apart it is accepted only
   * then.
   */
  lemma SignedAccepted(mac: Mac, secret: Bytes, payload: Bytes, other: Bytes, t: int, now: int)
    requires MIN64 <= now <= MAX64 && MIN64 <= t <= MAX64 && Distance(now, t) < TWO64 / 2
    ensures Accepts(mac, secret, other, PrintedHeader(t, [Signed(mac, secret, t, payload)]), now) <==>
            && Distance(now, t) <= 300
            && mac(secret, Print(t) + [0x2E] + payload) == mac(secret, Print(t) + [0x2E] + other)
  {
    hide Accepts, Print;
    var signature := Signed(mac, secret, t, payload);
    LowerNoComma(mac(secret, Print(t) + [0x2E] + payload));
    AcceptsPrinted(mac, secret, other, t, [signature], now);
    Hex.LowerIs(signature, mac(secret, Print(t) + [0x2E] + payload));
  }

  /**
   * With a MAC that tells any two messages apart, a header is accepted for the payload it was signed for and no other.
   */
  lemma NoForgery(mac: Mac, secret: Bytes, payload: Bytes, other: Bytes, t: int, now: int)
    requires MIN64 <= now <= MAX64 && MIN64 <= t <= MAX64 && Distance(now, t) <= 300
    requires forall m, n | mac(secret, m) == mac(secret, n) :: m == n
    ensures Accepts(mac, secret, other, PrintedHeader(t, [Signed(mac, secret, t, payload)]), now) <==> other == payload
  {
    SignedAccepted(mac, secret, payload, other, t, now);
    SignedIs(t, payload, t, other);
  }

  lemma {:induction false} LowerNoComma(bytes: Bytes)
    ensures COMMA !in Hex.Lower(bytes)
  {
    if bytes != [] {
      LowerNoComma(bytes[..|bytes| - 1]);
    }
  }
}
