/** Sequence and map helpers shared by the store and the views:
    `Array.prototype.filter`, `Array.from(map.values())`, and the fact that a
    finite set of strings always leaves some string unused. */
module Collections {

  // ---------------------------------------------------------------------
  // `s.filter(p)`
  // ---------------------------------------------------------------------

  /** `s.filter(p)`: each element that passes `p` as often as it occurs in
      `s`, and nothing else. */
  function Filter<T(!new)>(s: seq<T>, p: T -> bool): (r: seq<T>)
    ensures |r| <= |s|
    ensures forall x :: x in r ==> x in s && p(x)
    ensures forall x :: x in s && p(x) ==> x in r
    ensures forall x :: multiset(r)[x] == if p(x) then multiset(s)[x] else 0
  {
    if s == [] then []
    else
      var rest := Filter(s[1..], p);
      assert s == [s[0]] + s[1..];
      if p(s[0]) then [s[0]] + rest else rest
  }

  /** `r` is `s` with some elements left out and the others in their
      original order. */
  predicate SubsequenceOf<T(==)>(r: seq<T>, s: seq<T>)
    decreases |s|
  {
    if r == [] then true
    else if s == [] then false
    else if r[0] == s[0] then SubsequenceOf(r[1..], s[1..])
    else SubsequenceOf(r, s[1..])
  }

  /** Filtering keeps the relative order of what it keeps. */
  lemma {:induction false} FilterPreservesOrder<T(!new)>(s: seq<T>, p: T -> bool)
    ensures SubsequenceOf(Filter(s, p), s)
  {
    if s != [] {
      FilterPreservesOrder(s[1..], p);
    }
  }

  /** A filter that keeps everything returns its input unchanged. */
  lemma {:induction false} FilterAll<T(!new)>(s: seq<T>, p: T -> bool)
    requires forall x :: x in s ==> p(x)
    ensures Filter(s, p) == s
  {
    if s != [] {
      FilterAll(s[1..], p);
      assert s == [s[0]] + s[1..];
    }
  }

  // ---------------------------------------------------------------------
  // `Array.from(m.values())`
  // ---------------------------------------------------------------------

  /** No two keys of `m` hold the same value. */
  ghost predicate Injective<K, V>(m: map<K, V>) {
    forall k1, k2 :: k1 in m && k2 in m && k1 != k2 ==> m[k1] != m[k2]
  }

  lemma RemoveKeyValues<K, V>(m: map<K, V>, k: K)
    requires k in m && Injective(m)
    ensures Injective(m - {k})
    ensures multiset((m - {k}).Values) == multiset(m.Values) - multiset{m[k]}
  {
    var rest := m - {k};
    assert rest.Values == m.Values - {m[k]} by {
      forall v | v in m.Values - {m[k]} ensures v in rest.Values {
        var k' :| k' in m && m[k'] == v;
        assert k' != k;
        assert rest[k'] == v;
      }
    }
  }

  /** `Array.from(m.values())`: every value of `m` once. The map's insertion
      order, which fixes the order of the result in JavaScript, is not part
      of a Dafny map, so the order here is arbitrary. */
  method ValuesOf<K, V(==)>(m: map<K, V>) returns (vs: seq<V>)
    requires Injective(m)
    ensures multiset(vs) == multiset(m.Values)
    ensures |vs| == |m|
  {
    vs := [];
    var rest := m;
    while rest != map[]
      invariant Injective(rest)
      invariant multiset(vs) + multiset(rest.Values) == multiset(m.Values)
      invariant |vs| + |rest| == |m|
      decreases |rest|
    {
      var k :| k in rest;
      RemoveKeyValues(rest, k);
      vs := vs + [rest[k]];
      rest := rest - {k};
    }
  }

  // ---------------------------------------------------------------------
  // Fresh identifiers
  // ---------------------------------------------------------------------

  /** A length that no string in `used` reaches. */
  lemma {:induction false} LengthBound(used: set<string>) returns (n: nat)
    ensures forall s :: s in used ==> |s| < n
    decreases used
  {
    if used == {} {
      n := 0;
    } else {
      var x :| x in used;
      var m := LengthBound(used - {x});
      n := if |x| + 1 > m then |x| + 1 else m;
    }
  }

  /** However many identifiers have been handed out, another non-empty one
      exists. */
  lemma FreshExists(used: set<string>)
    ensures exists s: string :: s !in used && s != ""
  {
    var n := LengthBound(used);
    var s: string := seq(n + 1, _ => 'x');
    assert s !in used && s != "";
  }
}
