/** Two hexadecimal digits per byte. */
module Hex {
  import opened Options
  import opened Text

  function LowerDigit(n: bv8): bv8 {
    if n < 10 then 0x30 + n else 0x57 + n
  }

  function UpperDigit(n: bv8): bv8 {
    if n < 10 then 0x30 + n else 0x37 + n
  }

  /** The value of a hexadecimal digit of either case. */
  function DigitValue(c: bv8): Option<bv8> {
    if 0x30 <= c <= 0x39 then Some(c - 0x30)
    else if 0x61 <= c <= 0x66 then Some(c - 0x57)
    else if 0x41 <= c <= 0x46 then Some(c - 0x37)
    else None
  }

  /** `format!("{byte:02x}")` */
  function LowerPair(b: bv8): (r: Bytes)
    ensures |r| == 2
  {
    [LowerDigit(b >> 4), LowerDigit(b & 0xF)]
  }

  /** `format!("{byte:02X}")` */
  function UpperPair(b: bv8): (r: Bytes)
    ensures |r| == 2
  {
    [UpperDigit(b >> 4), UpperDigit(b & 0xF)]
  }

  function ReadPair(hi: bv8, lo: bv8): Option<bv8> {
    if DigitValue(hi).None? || DigitValue(lo).None? then None
    else Some((DigitValue(hi).value << 4) | DigitValue(lo).value)
  }

  lemma LowerPairReads(b: bv8)
    ensures ReadPair(LowerPair(b)[0], LowerPair(b)[1]) == Some(b)
  {
  }

  function Lower(bytes: Bytes): (r: Bytes)
    ensures |r| == 2 * |bytes|
  {
    if bytes == [] then [] else Lower(bytes[..|bytes| - 1]) + LowerPair(bytes[|bytes| - 1])
  }

  /** hex_lower pushes one pair after the other. */
  method HexLower(bytes: Bytes) returns (out: Bytes)
    ensures out == Lower(bytes)
  {
    out := [];
    var i := 0;
    while i < |bytes|
      invariant i <= |bytes| && out == Lower(bytes[..i])
    {
      assert bytes[..i + 1][..i] == bytes[..i];
      out := out + LowerPair(bytes[i]);
      i := i + 1;
    }
    assert bytes[..i] == bytes;
  }

  /** Reads pairs of hexadecimal digits back into bytes. */
  function Unhex(s: Bytes): Option<Bytes> {
    if s == [] then Some([])
    else if |s| == 1 then None
    else
      var front, last := Unhex(s[..|s| - 2]), ReadPair(s[|s| - 2], s[|s| - 1]);
      if front.None? || last.None? then None else Some(front.value + [last.value])
  }

  lemma UnhexOneMore(front: Bytes, pair: Bytes)
    requires |pair| == 2 && Unhex(front).Some? && ReadPair(pair[0], pair[1]).Some?
    ensures Unhex(front + pair) == Some(Unhex(front).value + [ReadPair(pair[0], pair[1]).value])
  {
    hide ReadPair;
    assert (front + pair)[..|front|] == front;
  }

  lemma {:induction false} UnhexLower(bytes: Bytes)
    ensures Unhex(Lower(bytes)) == Some(bytes)
  {
    hide LowerPair, ReadPair, Unhex;
    if bytes == [] {
      UnhexNothing();
    } else {
      var n := |bytes| - 1;
      UnhexLower(bytes[..n]);
      LowerPairReads(bytes[n]);
      UnhexOneMore(Lower(bytes[..n]), LowerPair(bytes[n]));
      assert bytes[..n] + [bytes[n]] == bytes;
    }
  }

  lemma UnhexNothing()
    ensures Unhex([]) == Some([])
  {
  }

  /** `0` to `9` and `a` to `f`. */
  predicate IsLower(c: bv8) {
    0x30 <= c <= 0x39 || 0x61 <= c <= 0x66
  }

  lemma LowerPairIs(b: bv8, hi: bv8, lo: bv8)
    ensures LowerPair(b) == [hi, lo] <==> ReadPair(hi, lo) == Some(b) && IsLower(hi) && IsLower(lo)
  {
  }

  /** The print of the bytes is the one text in lower case that reads as them. */
  lemma LowerIs(s: Bytes, bytes: Bytes)
    ensures s == Lower(bytes) <==> Unhex(s) == Some(bytes) && forall c | c in s :: IsLower(c)
  {
    hide Lower, Unhex, IsLower;
    if s == Lower(bytes) {
      UnhexLower(bytes);
      LowerDigits(bytes);
    }
    if Unhex(s) == Some(bytes) && forall c | c in s :: IsLower(c) {
      ReadsLower(s, bytes);
    }
  }

  lemma {:induction false} ReadsLower(s: Bytes, bytes: Bytes)
    requires Unhex(s) == Some(bytes) && forall c | c in s :: IsLower(c)
    ensures s == Lower(bytes)
    decreases |s|
  {
    hide LowerPair, ReadPair, IsLower, Lower;
    if s != [] {
      var n := |s| - 2;
      var front, last := Unhex(s[..n]).value, ReadPair(s[n], s[n + 1]).value;
      ReadsLower(s[..n], front);
      LowerPairIs(last, s[n], s[n + 1]);
      LowerOneMore(front, last);
      assert s == s[..n] + [s[n], s[n + 1]];
    } else {
      LowerNothing();
    }
  }

  lemma LowerOneMore(bytes: Bytes, b: bv8)
    ensures Lower(bytes + [b]) == Lower(bytes) + LowerPair(b)
  {
    assert (bytes + [b])[..|bytes|] == bytes;
  }

  lemma LowerNothing()
    ensures Lower([]) == []
  {
  }

  lemma {:induction false} LowerDigits(bytes: Bytes)
    ensures forall c | c in Lower(bytes) :: IsLower(c)
  {
    if bytes != [] {
      var n := |bytes| - 1;
      LowerDigits(bytes[..n]);
      var pair := LowerPair(bytes[n]);
      LowerPairIs(bytes[n], pair[0], pair[1]);
      assert pair == [pair[0], pair[1]];
    }
  }

  /** `0` to `9` and `A` to `F`. */
  predicate IsUpper(c: bv8) {
    0x30 <= c <= 0x39 || 0x41 <= c <= 0x46
  }

  lemma UpperPairIs(b: bv8, hi: bv8, lo: bv8)
    ensures UpperPair(b) == [hi, lo] <==> ReadPair(hi, lo) == Some(b) && IsUpper(hi) && IsUpper(lo)
  {
  }
}
