/** Byte strings, and cutting sequences at a separator. */
module Text {
  import opened Options

  type Bytes = seq<bv8>

  /** The decimal numeral of `n`, written with the given ten digits. */
  function Numeral<T>(n: nat, digits: seq<T>): (s: seq<T>)
    requires |digits| == 10
    ensures s != []
  {
    if n < 10 then [digits[n]] else Numeral(n / 10, digits) + [digits[n % 10]]
  }

  lemma {:induction false} NumeralDigits<T>(n: nat, digits: seq<T>, c: T)
    requires |digits| == 10 && c in Numeral(n, digits)
    ensures c in digits
    decreases n
  {
    if n >= 10 && c in Numeral(n / 10, digits) {
      NumeralDigits(n / 10, digits, c);
    }
  }

  /** `s.split(sep)`: one part more than there are separators. */
  function Split<T(==)>(s: seq<T>, sep: T): (parts: seq<seq<T>>)
    ensures parts != []
  {
    if s == [] then [[]]
    else
      var rest := Split(s[1..], sep);
      if s[0] == sep then [[]] + rest else [[s[0]] + rest[0]] + rest[1..]
  }

  /** `parts.join(sep)` */
  function Join<T>(parts: seq<seq<T>>, sep: T): seq<T>
    requires parts != []
  {
    if |parts| == 1 then parts[0] else parts[0] + [sep] + Join(parts[1..], sep)
  }

  /** `s.split_once(sep)`: cut at the first separator. */
  function SplitOnce<T(==)>(s: seq<T>, sep: T): Option<(seq<T>, seq<T>)> {
    if s == [] then None
    else if s[0] == sep then Some(([], s[1..]))
    else
      var rest := SplitOnce(s[1..], sep);
      if rest.None? then None else Some(([s[0]] + rest.value.0, rest.value.1))
  }

  lemma {:induction false} SplitFirst<T>(p: seq<T>, rest: seq<T>, sep: T)
    requires sep !in p
    ensures Split(p + [sep] + rest, sep) == [p] + Split(rest, sep)
  {
    var s := p + [sep] + rest;
    if p == [] {
      assert s[1..] == rest;
    } else {
      SplitFirst(p[1..], rest, sep);
      assert s[1..] == p[1..] + [sep] + rest && s[0] == p[0] != sep;
      assert [p[0]] + p[1..] == p;
    }
  }

  lemma {:induction false} SplitWhole<T>(p: seq<T>, sep: T)
    requires sep !in p
    ensures Split(p, sep) == [p]
  {
    if p != [] {
      SplitWhole(p[1..], sep);
      assert [p[0]] + p[1..] == p;
    }
  }

  /** Splitting undoes joining when no part contains the separator. */
  lemma {:induction false} SplitJoin<T>(parts: seq<seq<T>>, sep: T)
    requires parts != [] && forall p | p in parts :: sep !in p
    ensures Split(Join(parts, sep), sep) == parts
  {
    if |parts| == 1 {
      SplitWhole(parts[0], sep);
    } else {
      SplitJoin(parts[1..], sep);
      SplitFirst(parts[0], Join(parts[1..], sep), sep);
    }
  }

  /** Joining undoes splitting, always. */
  lemma JoinGrown<T>(x: T, parts: seq<seq<T>>, sep: T)
    requires parts != []
    ensures Join([[x] + parts[0]] + parts[1..], sep) == [x] + Join(parts, sep)
  {
    var grown := [[x] + parts[0]] + parts[1..];
    assert grown[1..] == parts[1..];
    if |parts| > 1 {
      assert [x] + parts[0] + [sep] + Join(parts[1..], sep) == [x] + (parts[0] + [sep] + Join(parts[1..], sep));
    }
  }

  lemma {:induction false} JoinSplit<T>(s: seq<T>, sep: T)
    ensures Join(Split(s, sep), sep) == s
  {
    if s != [] {
      hide Join;
      JoinSplit(s[1..], sep);
      var rest := Split(s[1..], sep);
      if s[0] == sep {
        JoinEmpty(rest, sep);
      } else {
        JoinGrown(s[0], rest, sep);
      }
      assert [s[0]] + s[1..] == s;
    }
  }

  lemma JoinEmpty<T>(parts: seq<seq<T>>, sep: T)
    requires parts != []
    ensures Join([[]] + parts, sep) == [sep] + Join(parts, sep)
  {
    assert ([[]] + parts)[1..] == parts;
    assert [] + [sep] == [sep];
  }

  lemma {:induction false} SplitOnceNowhere<T>(s: seq<T>, sep: T)
    requires sep !in s
    ensures SplitOnce(s, sep) == None
  {
    if s != [] {
      SplitOnceNowhere(s[1..], sep);
    }
  }

  lemma {:induction false} SplitOnceAt<T>(p: seq<T>, rest: seq<T>, sep: T)
    requires sep !in p
    ensures SplitOnce(p + [sep] + rest, sep) == Some((p, rest))
  {
    var s := p + [sep] + rest;
    if p == [] {
      assert s[1..] == rest;
    } else {
      SplitOnceAt(p[1..], rest, sep);
      assert s[1..] == p[1..] + [sep] + rest && [p[0]] + p[1..] == p;
    }
  }

  lemma {:induction false} SplitParts<T>(s: seq<T>, sep: T)
    ensures forall p | p in Split(s, sep) :: sep !in p
  {
    if s != [] {
      SplitParts(s[1..], sep);
    }
  }
}
