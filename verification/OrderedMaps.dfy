/**
 * A map that remembers insertion order, as the JavaScript `Map` does: overwriting a key
 * keeps its place, a new key goes last, and a deleted key that comes back goes last again.
 */
module OrderedMaps {

  ghost predicate NoDuplicates<T>(s: seq<T>) {
    forall i, j :: 0 <= i < j < |s| ==> s[i] != s[j]
  }

  datatype OrderedMap<V> = OrderedMap(order: seq<string>, entries: map<string, V>) {

    ghost predicate Valid() {
      && NoDuplicates(order)
      && (forall k :: k in order <==> k in entries)
    }

    predicate Has(k: string) {
      k in entries
    }

    function Get(k: string): V
      requires Has(k)
    {
      entries[k]
    }

    function Set(k: string, v: V): OrderedMap<V> {
      OrderedMap(if k in entries then order else order + [k], entries[k := v])
    }

    function Delete(k: string): OrderedMap<V> {
      OrderedMap(Without(order, k), entries - {k})
    }

    /** The entries in iteration order. */
    function Pairs(): (ps: seq<(string, V)>)
      requires Valid()
    {
      seq(|order|, i requires 0 <= i < |order| => (order[i], entries[order[i]]))
    }

    /** The values in iteration order, `[...map.values()]`. */
    function Values(): (vs: seq<V>)
      requires Valid()
    {
      seq(|order|, i requires 0 <= i < |order| => entries[order[i]])
    }
  }

  function Empty<V>(): OrderedMap<V> {
    OrderedMap([], map[])
  }

  function Without(s: seq<string>, k: string): seq<string> {
    if s == [] then [] else if s[0] == k then Without(s[1..], k) else [s[0]] + Without(s[1..], k)
  }

  /** `new Map(pairs)`: the pairs are set one after the other. */
  function FromPairs<V>(ps: seq<(string, V)>): OrderedMap<V> {
    if ps == [] then Empty()
    else FromPairs(ps[..|ps| - 1]).Set(ps[|ps| - 1].0, ps[|ps| - 1].1)
  }

  lemma SetKeepsValid<V>(m: OrderedMap<V>, k: string, v: V)
    requires m.Valid()
    ensures m.Set(k, v).Valid()
    ensures m.order <= m.Set(k, v).order
  {
    var n := m.Set(k, v);
    forall x ensures x in n.order <==> x in n.entries {
      assert x in n.order <==> x in m.order || x == k;
    }
  }

  lemma {:induction false} WithoutDrops(s: seq<string>, k: string)
    requires NoDuplicates(s)
    ensures NoDuplicates(Without(s, k))
    ensures forall x :: x in Without(s, k) <==> x in s && x != k
  {
    if s == [] {
    } else {
      assert s == [s[0]] + s[1..];
      assert s[0] !in s[1..];
      WithoutDrops(s[1..], k);
    }
  }

  lemma DeleteKeepsValid<V>(m: OrderedMap<V>, k: string)
    requires m.Valid()
    ensures m.Delete(k).Valid()
  {
    WithoutDrops(m.order, k);
  }

  /** The map cut down to the first `n` keys it holds. */
  ghost function FirstKeys<V>(m: OrderedMap<V>, n: nat): OrderedMap<V>
    requires m.Valid() && n <= |m.order|
  {
    OrderedMap(m.order[..n], map k | k in m.order[..n] :: m.entries[k])
  }

  lemma {:induction false} FromPairsOfPrefix<V>(m: OrderedMap<V>, n: nat)
    requires m.Valid() && n <= |m.order|
    ensures FromPairs(m.Pairs()[..n]) == FirstKeys(m, n)
  {
    if n == 0 {
    } else {
      hide FirstKeys;
      FromPairsOfPrefix(m, n - 1);
      var ps, k := m.Pairs()[..n], m.order[n - 1];
      assert ps[..n - 1] == m.Pairs()[..n - 1];
      assert ps[n - 1] == (k, m.entries[k]);
      NextKey(m, n);
    }
  }

  lemma NextKey<V>(m: OrderedMap<V>, n: nat)
    requires m.Valid() && 0 < n <= |m.order|
    ensures m.order[n - 1] in m.entries
    ensures FirstKeys(m, n) == FirstKeys(m, n - 1).Set(m.order[n - 1], m.entries[m.order[n - 1]])
  {
    var k := m.order[n - 1];
    assert k in m.order;
    assert m.order[..n] == m.order[..n - 1] + [k];
    assert k !in m.order[..n - 1];
    assert FirstKeys(m, n).entries == FirstKeys(m, n - 1).entries[k := m.entries[k]];
  }

  /** Writing the pairs out and reading them back gives the same map in the same order. */
  lemma FromPairsOfPairs<V>(m: OrderedMap<V>)
    requires m.Valid()
    ensures FromPairs(m.Pairs()) == m
  {
    FromPairsOfPrefix(m, |m.order|);
    assert m.Pairs()[..|m.order|] == m.Pairs();
    assert m.order[..|m.order|] == m.order;
    assert FirstKeys(m, |m.order|).entries == m.entries;
  }

  lemma {:induction false} FromPairsIsValid<V>(ps: seq<(string, V)>)
    ensures FromPairs(ps).Valid()
    ensures forall i :: 0 <= i < |ps| ==> ps[i].0 in FromPairs(ps).entries
    ensures forall k :: k in FromPairs(ps).entries ==>
      exists i :: 0 <= i < |ps| && ps[i] == (k, FromPairs(ps).entries[k])
  {
    if ps == [] {
    } else {
      var front := ps[..|ps| - 1];
      FromPairsIsValid(front);
      SetKeepsValid(FromPairs(front), ps[|ps| - 1].0, ps[|ps| - 1].1);
      forall i | 0 <= i < |ps| ensures ps[i].0 in FromPairs(ps).entries {
        if i < |front| { assert front[i] == ps[i]; }
      }
      forall k | k in FromPairs(ps).entries
        ensures exists i :: 0 <= i < |ps| && ps[i] == (k, FromPairs(ps).entries[k])
      {
        if k == ps[|ps| - 1].0 {
          assert ps[|ps| - 1] == (k, FromPairs(ps).entries[k]);
        } else {
          var i :| 0 <= i < |front| && front[i] == (k, FromPairs(front).entries[k]);
          assert ps[i] == (k, FromPairs(ps).entries[k]);
        }
      }
    }
  }
}
