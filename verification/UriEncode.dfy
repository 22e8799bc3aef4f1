/** The percent-encoding of SigV4 and the canonical query string built with it. */
module UriEncode {
  import opened Options
  import opened Sorting
  import opened Text
  import Hex

  const SLASH: bv8 := 0x2F
  const PERCENT: bv8 := 0x25
  const AMPERSAND: bv8 := 0x26
  const EQUALS: bv8 := 0x3D

  /** Section 2.3 of RFC 3986. */
  predicate Unreserved(b: bv8) {
    || 0x41 <= b <= 0x5A || 0x61 <= b <= 0x7A || 0x30 <= b <= 0x39
    || b == 0x2D || b == 0x5F || b == 0x2E || b == 0x7E
  }

  function EncodeByte(b: bv8, encodeSlash: bool): Bytes {
    if Unreserved(b) then [b]
    else if b == SLASH && !encodeSlash then [SLASH]
    else [PERCENT] + Hex.UpperPair(b)
  }

  function Encode(input: Bytes, encodeSlash: bool): Bytes {
    if input == [] then [] else EncodeByte(input[0], encodeSlash) + Encode(input[1..], encodeSlash)
  }

  lemma {:induction false} EncodeConcat(a: Bytes, b: Bytes, encodeSlash: bool)
    ensures Encode(a + b, encodeSlash) == Encode(a, encodeSlash) + Encode(b, encodeSlash)
  {
    hide EncodeByte;
    if a == [] {
      assert a + b == b;
    } else {
      EncodeConcat(a[1..], b, encodeSlash);
      assert (a + b)[1..] == a[1..] + b && (a + b)[0] == a[0];
    }
  }

  lemma EncodeOne(b: bv8, encodeSlash: bool)
    ensures Encode([b], encodeSlash) == EncodeByte(b, encodeSlash)
  {
  }

  /** uri_encode pushes the code of one byte after the other. */
  method UriEncode(input: Bytes, encodeSlash: bool) returns (out: Bytes)
    ensures out == Encode(input, encodeSlash)
  {
    out := [];
    var i := 0;
    while i < |input|
      invariant i <= |input| && out == Encode(input[..i], encodeSlash)
    {
      var byte := input[i];
      EncodeConcat(input[..i], [byte], encodeSlash);
      EncodeOne(byte, encodeSlash);
      assert input[..i + 1] == input[..i] + [byte];
      if Unreserved(byte) {
        out := out + [byte];
      } else if byte == SLASH && !encodeSlash {
        out := out + [SLASH];
      } else {
        out := out + [PERCENT] + Hex.UpperPair(byte);
      }
      i := i + 1;
    }
    assert input[..i] == input;
  }

  /** Section 2.1 of RFC 3986, read the other way; None for a broken escape. */
  function Decode(s: Bytes): Option<Bytes> {
    if s == [] then Some([])
    else if s[0] != PERCENT then
      var rest := Decode(s[1..]);
      if rest.None? then None else Some([s[0]] + rest.value)
    else if |s| < 3 || Hex.ReadPair(s[1], s[2]).None? then None
    else
      var rest := Decode(s[3..]);
      if rest.None? then None else Some([Hex.ReadPair(s[1], s[2]).value] + rest.value)
  }

  lemma DecodeByte(b: bv8, encodeSlash: bool, rest: Bytes)
    ensures Decode(EncodeByte(b, encodeSlash) + rest) ==
            if Decode(rest).None? then None else Some([b] + Decode(rest).value)
  {
  }

  /** Decoding undoes encoding, for all bytes and either treatment of slashes. */
  lemma {:induction false} DecodeEncode(input: Bytes, encodeSlash: bool)
    ensures Decode(Encode(input, encodeSlash)) == Some(input)
  {
    if input != [] {
      DecodeEncode(input[1..], encodeSlash);
      DecodeByte(input[0], encodeSlash, Encode(input[1..], encodeSlash));
      assert [input[0]] + input[1..] == input;
    }
  }

  // ---- the one encoding ------------------------------------------------------------------------------

  /** Letters, digits, hyphen, underscore, full stop and tilde, and slashes if they are kept. */
  predicate Plain(b: bv8, encodeSlash: bool) {
    || 0x41 <= b <= 0x5A || 0x61 <= b <= 0x7A || 0x30 <= b <= 0x39 || b == 0x2D || b == 0x5F || b == 0x2E || b == 0x7E
    || (b == 0x2F && !encodeSlash)
  }

  /**
   * Plain bytes stand for themselves, and no others do; every other byte is a percent sign and two digits in upper
   * case.
   */
  predicate Canonical(s: Bytes, encodeSlash: bool) {
    s == [] ||
    if s[0] != 0x25 then Plain(s[0], encodeSlash) && Canonical(s[1..], encodeSlash)
    else
      && |s| >= 3 && Hex.IsUpper(s[1]) && Hex.IsUpper(s[2])
      && !Plain(Hex.ReadPair(s[1], s[2]).value, encodeSlash) && Canonical(s[3..], encodeSlash)
  }

  lemma EncodeByteIs(b: bv8, encodeSlash: bool)
    ensures Plain(b, encodeSlash) ==> EncodeByte(b, encodeSlash) == [b] && b != 0x25
    ensures !Plain(b, encodeSlash) ==> EncodeByte(b, encodeSlash) == [0x25] + Hex.UpperPair(b)
  {
  }

  /** Of all texts that decode to the bytes, the encoding is the canonical one. */
  lemma EncodeIs(input: Bytes, encodeSlash: bool, s: Bytes)
    ensures s == Encode(input, encodeSlash) <==> Decode(s) == Some(input) && Canonical(s, encodeSlash)
  {
    hide Encode, Decode, Canonical;
    if s == Encode(input, encodeSlash) {
      DecodeEncode(input, encodeSlash);
      EncodeCanonical(input, encodeSlash);
    }
    if Decode(s) == Some(input) && Canonical(s, encodeSlash) {
      CanonicalEncodes(input, encodeSlash, s);
    }
  }

  lemma {:induction false} EncodeCanonical(input: Bytes, encodeSlash: bool)
    ensures Canonical(Encode(input, encodeSlash), encodeSlash)
  {
    hide EncodeByte, Plain, Hex.UpperPair, Hex.ReadPair, Hex.IsUpper;
    if input != [] {
      EncodeCanonical(input[1..], encodeSlash);
      ByteCanonical(input[0], encodeSlash, Encode(input[1..], encodeSlash));
    }
  }

  lemma ByteCanonical(b: bv8, encodeSlash: bool, rest: Bytes)
    requires Canonical(rest, encodeSlash)
    ensures Canonical(EncodeByte(b, encodeSlash) + rest, encodeSlash)
  {
    hide EncodeByte, Plain, Hex.UpperPair, Hex.ReadPair, Hex.IsUpper;
    EncodeByteIs(b, encodeSlash);
    var s := EncodeByte(b, encodeSlash) + rest;
    if Plain(b, encodeSlash) {
      assert s[0] == b && s[1..] == rest;
    } else {
      var pair := Hex.UpperPair(b);
      Hex.UpperPairIs(b, pair[0], pair[1]);
      assert pair == [pair[0], pair[1]];
      assert s == [0x25, pair[0], pair[1]] + rest && s[3..] == rest;
    }
  }

  lemma {:induction false} CanonicalEncodes(input: Bytes, encodeSlash: bool, s: Bytes)
    requires Decode(s) == Some(input) && Canonical(s, encodeSlash)
    ensures s == Encode(input, encodeSlash)
    decreases |s|
  {
    hide EncodeByte, Plain, Hex.UpperPair, Hex.ReadPair, Hex.IsUpper;
    if s != [] {
      EncodeByteIs(input[0], encodeSlash);
      if s[0] != 0x25 {
        assert input[1..] == Decode(s[1..]).value;
        CanonicalEncodes(input[1..], encodeSlash, s[1..]);
        assert s == [s[0]] + s[1..];
      } else {
        assert input[1..] == Decode(s[3..]).value;
        CanonicalEncodes(input[1..], encodeSlash, s[3..]);
        Hex.UpperPairIs(input[0], s[1], s[2]);
        assert s == [s[0]] + [s[1], s[2]] + s[3..];
      }
    }
  }

  // ---- which bytes appear ----------------------------------------------------------------------------

  lemma UpperPairPlain(b: bv8)
    ensures forall c | c in Hex.UpperPair(b) :: Unreserved(c)
  {
  }

  /** Only unreserved bytes, percent signs and, if kept, slashes. */
  lemma {:induction false} EncodedBytes(input: Bytes, encodeSlash: bool)
    ensures forall c | c in Encode(input, encodeSlash) :: Unreserved(c) || c == PERCENT || (c == SLASH && !encodeSlash)
  {
    if input != [] {
      EncodedBytes(input[1..], encodeSlash);
      UpperPairPlain(input[0]);
    }
  }

  // ---- paths ---------------------------------------------------------------------------------------------

  function EncodeAll(parts: seq<Bytes>): (r: seq<Bytes>)
    ensures |r| == |parts| && forall i :: 0 <= i < |r| ==> r[i] == Encode(parts[i], false)
  {
    seq(|parts|, i requires 0 <= i < |parts| => Encode(parts[i], false))
  }

  lemma EncodeNoSlash(p: Bytes)
    requires SLASH !in p
    ensures SLASH !in Encode(p, false)
  {
  }

  lemma {:induction false} EncodeJoin(parts: seq<Bytes>)
    requires parts != []
    ensures Encode(Join(parts, SLASH), false) == Join(EncodeAll(parts), SLASH)
  {
    if |parts| > 1 {
      EncodeJoin(parts[1..]);
      assert EncodeAll(parts)[1..] == EncodeAll(parts[1..]);
      EncodeConcat(parts[0] + [SLASH], Join(parts[1..], SLASH), false);
      EncodeConcat(parts[0], [SLASH], false);
      EncodeOne(SLASH, false);
    }
  }

  /** With slashes kept, encoding a path encodes its segments. */
  lemma EncodeSplit(path: Bytes)
    ensures Split(Encode(path, false), SLASH) == EncodeAll(Split(path, SLASH))
  {
    var parts := Split(path, SLASH);
    JoinSplit(path, SLASH);
    SplitParts(path, SLASH);
    EncodeJoin(parts);
    forall p | p in EncodeAll(parts)
      ensures SLASH !in p
    {
      var i :| 0 <= i < |parts| && EncodeAll(parts)[i] == p;
      EncodeNoSlash(parts[i]);
    }
    SplitJoin(EncodeAll(parts), SLASH);
  }

  // ---- the canonical query -----------------------------------------------------------------------------------

  datatype Param = Param(key: Bytes, value: Bytes)

  predicate LexLeq(a: Bytes, b: Bytes) {
    a == [] || (b != [] && (a[0] < b[0] || (a[0] == b[0] && LexLeq(a[1..], b[1..]))))
  }

  predicate KeyLeq(a: Param, b: Param) {
    LexLeq(a.key, b.key)
  }

  function OfKey(ps: seq<Param>, k: Bytes): seq<Param> {
    Select(ps, (p: Param) => p.key == k)
  }

  lemma {:induction false} LexTotal(a: Bytes, b: Bytes)
    ensures LexLeq(a, b) || LexLeq(b, a)
  {
    if a != [] && b != [] && a[0] == b[0] {
      LexTotal(a[1..], b[1..]);
    }
  }

  lemma {:induction false} LexTransitive(a: Bytes, b: Bytes, c: Bytes)
    requires LexLeq(a, b) && LexLeq(b, c)
    ensures LexLeq(a, c)
  {
    if a != [] && a[0] == b[0] == c[0] {
      LexTransitive(a[1..], b[1..], c[1..]);
    }
  }

  lemma KeyOrder()
    ensures Total(KeyLeq) && Transitive(KeyLeq)
  {
    forall a, b
      ensures KeyLeq(a, b) || KeyLeq(b, a)
    {
      LexTotal(a.key, b.key);
    }
    forall a, b, c | KeyLeq(a, b) && KeyLeq(b, c)
      ensures KeyLeq(a, c)
    {
      LexTransitive(a.key, b.key, c.key);
    }
  }

  function EncodeParam(p: Param): Bytes {
    Encode(p.key, true) + [EQUALS] + Encode(p.value, true)
  }

  function EncodeParams(ps: seq<Param>): (r: seq<Bytes>)
    ensures |r| == |ps| && forall i :: 0 <= i < |r| ==> r[i] == EncodeParam(ps[i])
  {
    seq(|ps|, i requires 0 <= i < |ps| => EncodeParam(ps[i]))
  }

  function CanonicalQuery(params: seq<Param>): Bytes {
    if params == [] then [] else Join(EncodeParams(Sort(params, KeyLeq)), AMPERSAND)
  }

  function ReadParam(s: Bytes): Option<Param> {
    var item := SplitOnce(s, EQUALS);
    if item.None? || Decode(item.value.0).None? || Decode(item.value.1).None? then None
    else Some(Param(Decode(item.value.0).value, Decode(item.value.1).value))
  }

  function ReadParams(parts: seq<Bytes>): (r: seq<Option<Param>>)
    ensures |r| == |parts| && forall i :: 0 <= i < |r| ==> r[i] == ReadParam(parts[i])
  {
    seq(|parts|, i requires 0 <= i < |parts| => ReadParam(parts[i]))
  }

  function ReadQuery(query: Bytes): seq<Option<Param>> {
    if query == [] then [] else ReadParams(Split(query, AMPERSAND))
  }

  function Present(ps: seq<Param>): (r: seq<Option<Param>>)
    ensures |r| == |ps| && forall i :: 0 <= i < |r| ==> r[i] == Some(ps[i])
  {
    seq(|ps|, i requires 0 <= i < |ps| => Some(ps[i]))
  }

  lemma ParamRoundTrip(p: Param)
    ensures ReadParam(EncodeParam(p)) == Some(p) && AMPERSAND !in EncodeParam(p)
  {
    hide Encode, Decode, SplitOnce;
    EncodedBytes(p.key, true);
    EncodedBytes(p.value, true);
    assert EQUALS !in Encode(p.key, true) && AMPERSAND !in Encode(p.key, true) && AMPERSAND !in Encode(p.value, true);
    SplitOnceAt(Encode(p.key, true), Encode(p.value, true), EQUALS);
    DecodeEncode(p.key, true);
    DecodeEncode(p.value, true);
  }

  lemma ParamsRoundTrip(ps: seq<Param>)
    requires ps != []
    ensures ReadQuery(Join(EncodeParams(ps), AMPERSAND)) == Present(ps)
  {
    hide ReadParam, EncodeParam;
    forall i | 0 <= i < |ps|
      ensures ReadParam(EncodeParams(ps)[i]) == Some(ps[i]) && AMPERSAND !in EncodeParams(ps)[i]
    {
      ParamRoundTrip(ps[i]);
    }
    SplitJoin(EncodeParams(ps), AMPERSAND);
    JoinNotEmpty(ps);
  }

  lemma JoinNotEmpty(ps: seq<Param>)
    requires ps != []
    ensures Join(EncodeParams(ps), AMPERSAND) != []
  {
  }

  /** Parameters with the same key stay in the order they were given in. */
  lemma SameKeyOrder(params: seq<Param>, k: Bytes)
    ensures OfKey(Sort(params, KeyLeq), k) == OfKey(params, k)
  {
    var hasKey := (p: Param) => p.key == k;
    forall a, b | hasKey(a) && hasKey(b)
      ensures KeyLeq(a, b)
    {
      LexTotal(k, k);
    }
    SortStable(params, KeyLeq, hasKey);
  }

  /** Taking the canonical query apart gives the parameters back, sorted by key. */
  lemma {:induction false} QueryRoundTrip(params: seq<Param>)
    ensures ReadQuery(CanonicalQuery(params)) == Present(Sort(params, KeyLeq))
    ensures Sorted(Sort(params, KeyLeq), KeyLeq) && multiset(Sort(params, KeyLeq)) == multiset(params)
  {
    KeyOrder();
    SortSorted(params, KeyLeq);
    SortPermutes(params, KeyLeq);
    if params != [] {
      ParamsRoundTrip(Sort(params, KeyLeq));
    } else {
      assert Present(Sort(params, KeyLeq)) == [];
    }
  }

  /** Parameters are written as key, equals sign, value, and joined by ampersands. */
  lemma QueryIs(params: seq<Param>)
    ensures var sorted := Sort(params, KeyLeq);
            var texts := EncodeParams(sorted);
            && CanonicalQuery(params) == (if params == [] then [] else Join(texts, 0x26))
            && forall i :: 0 <= i < |sorted| ==>
                 texts[i] == Encode(sorted[i].key, true) + [0x3D] + Encode(sorted[i].value, true)
  {
  }
}
