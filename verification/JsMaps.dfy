/** The JavaScript `Map`: a map that also remembers the order in which its keys were first inserted. */
module JsMaps {

  datatype Entries<K, V> = Entries(order: seq<K>, at: map<K, V>) {
    /** `order` lists every key exactly once. */
    ghost predicate Ok() {
      && (forall k | k in at :: k in order)
      && (forall k | k in order :: k in at)
      && (forall i, j :: 0 <= i < j < |order| ==> order[i] != order[j])
    }
  }

  type JsMap<K, V> = m: Entries<K, V> | m.Ok() witness Entries([], map[])

  function Empty<K, V>(): (m: JsMap<K, V>) {
    Entries([], map[])
  }

  /** `m.set(k, v)`: an existing key keeps its position, a new key goes last. */
  function Set<K(==), V>(m: JsMap<K, V>, k: K, v: V): (r: JsMap<K, V>)
    ensures r.at == m.at[k := v]
  {
    Entries(if k in m.at then m.order else m.order + [k], m.at[k := v])
  }

  /** The keys of `s` that are not in `gone`, in order. */
  function Keep<K(==)>(s: seq<K>, gone: set<K>): (r: seq<K>)
    ensures forall k | k in r :: k in s && k !in gone
    ensures forall k | k in s && k !in gone :: k in r
    ensures (forall i, j :: 0 <= i < j < |s| ==> s[i] != s[j]) ==> forall i, j :: 0 <= i < j < |r| ==> r[i] != r[j]
  {
    if s == [] then []
    else
      var rest := Keep(s[..|s| - 1], gone);
      var last := s[|s| - 1];
      assert s == s[..|s| - 1] + [last];
      if last in gone then rest else rest + [last]
  }

  /** The map after `delete` of every key in `gone`; deleting one key is the singleton case. */
  function Without<K(==), V>(m: JsMap<K, V>, gone: set<K>): (r: JsMap<K, V>)
    ensures r.at == m.at - gone
  {
    Entries(Keep(m.order, gone), m.at - gone)
  }

  /** `Array.from(m.values())`. */
  function Values<K(==), V>(m: JsMap<K, V>): (vs: seq<V>)
    ensures |vs| == |m.order|
    ensures forall i :: 0 <= i < |vs| ==> vs[i] == m.at[m.order[i]]
  {
    seq(|m.order|, i requires 0 <= i < |m.order| => m.at[m.order[i]])
  }

  lemma ValuesMembers<K, V>(m: JsMap<K, V>)
    ensures forall k | k in m.at :: m.at[k] in Values(m)
    ensures forall v | v in Values(m) :: exists k :: k in m.at && m.at[k] == v
  {
  }

  lemma KeepTwice<K>(s: seq<K>, a: set<K>, b: set<K>)
    ensures Keep(Keep(s, a), b) == Keep(s, a + b)
  {
  }

  lemma KeepAll<K>(s: seq<K>, gone: set<K>)
    requires forall k :: k in gone ==> k !in s
    ensures Keep(s, gone) == s
  {
  }

  /** Deletions compose, in whatever order they are made. */
  lemma WithoutTwice<K, V>(m: JsMap<K, V>, a: set<K>, b: set<K>)
    ensures Without(Without(m, a), b) == Without(m, a + b)
  {
    KeepTwice(m.order, a, b);
  }

  /** Deleting keys that are not there changes nothing, the order included. */
  lemma WithoutAbsent<K, V>(m: JsMap<K, V>, gone: set<K>)
    requires forall k :: k in gone ==> k !in m.at
    ensures Without(m, gone) == m
  {
    KeepAll(m.order, gone);
  }

  /** An entry that is set again stays in its place; a new one comes last. */
  lemma SetInPlace<K, V>(m: JsMap<K, V>, k: K, v: V)
    ensures var r := Set(m, k, v);
            && |r.order| == |m.order| + (if k in m.at then 0 else 1)
            && (forall i :: 0 <= i < |m.order| ==> r.order[i] == m.order[i])
            && (k !in m.at ==> r.order[|m.order|] == k)
  {
  }

  /** What is left after a deletion stands in the order it had. */
  lemma {:induction false} KeepsOrder<K>(s: seq<K>, gone: set<K>) returns (at: seq<nat>)
    ensures |at| == |Keep(s, gone)|
    ensures forall i :: 0 <= i < |at| ==> at[i] < |s| && Keep(s, gone)[i] == s[at[i]]
    ensures forall i, j :: 0 <= i < j < |at| ==> at[i] < at[j]
  {
    at := [];
    if s != [] {
      var n := |s| - 1;
      at := KeepsOrder(s[..n], gone);
      if s[n] !in gone {
        at := at + [n];
      }
    }
  }
}
