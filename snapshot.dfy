/**
 * An insertion-ordered dictionary with string keys, the way a Python dict behaves: assigning to a
 * new key appends it, assigning to an existing key overwrites the value and keeps its position.
 */
module Snapshots {

  datatype OrderedMap<V> = OrderedMap(keys: seq<string>, values: map<string, V>)
  {
    /** The keys are distinct and are exactly the map's domain. */
    ghost predicate Valid()
    {
      (forall i, j :: 0 <= i < j < |keys| ==> keys[i] != keys[j])
      && (forall k :: k in values <==> k in keys)
    }
  }

  function Empty<V>(): (m: OrderedMap<V>)
    ensures m.Valid() && m.keys == [] && m.values == map[]
  {
    OrderedMap([], map[])
  }

  /** `d[k] = v` on a Python dict. */
  function Put<V>(m: OrderedMap<V>, k: string, v: V): (r: OrderedMap<V>)
    requires m.Valid()
    ensures r.Valid()
    ensures r.values == m.values[k := v]
    ensures k in m.values ==> r.keys == m.keys
    ensures k !in m.values ==> r.keys == m.keys + [k]
  {
    if k in m.values then OrderedMap(m.keys, m.values[k := v])
    else OrderedMap(m.keys + [k], m.values[k := v])
  }

  /** The dict built by assigning the pairs in order, starting from an empty one. */
  function FromPairs<V>(ps: seq<(string, V)>): (m: OrderedMap<V>)
    ensures m.Valid()
  {
    if ps == [] then Empty() else Put(FromPairs(ps[..|ps| - 1]), ps[|ps| - 1].0, ps[|ps| - 1].1)
  }

  /** `d.values()`, in key order. */
  function Values<V>(m: OrderedMap<V>): (vs: seq<V>)
    requires m.Valid()
    ensures |vs| == |m.keys|
    ensures forall i :: 0 <= i < |m.keys| ==> vs[i] == m.values[m.keys[i]]
  {
    seq(|m.keys|, i requires 0 <= i < |m.keys| => m.values[m.keys[i]])
  }

  /** The position of the first pair with key `k`, or |ps| when there is none. */
  function FirstIndexOf<V>(ps: seq<(string, V)>, k: string): (i: nat)
    ensures i <= |ps|
    ensures i < |ps| ==> ps[i].0 == k
    ensures forall j :: 0 <= j < i ==> ps[j].0 != k
  {
    if ps == [] then 0 else if ps[0].0 == k then 0 else 1 + FirstIndexOf(ps[1..], k)
  }

  lemma FromPairsSnoc<V>(ps: seq<(string, V)>, p: (string, V))
    ensures FromPairs(ps + [p]) == Put(FromPairs(ps), p.0, p.1)
  {
    assert (ps + [p])[..|ps|] == ps;
  }

  /** The keys of the dict are exactly the keys of the pairs. */
  lemma {:induction false} FromPairsDomain<V>(ps: seq<(string, V)>)
    ensures forall k :: k in FromPairs(ps).values <==> exists i :: 0 <= i < |ps| && ps[i].0 == k
  {
    if ps != [] {
      var init := ps[..|ps| - 1];
      FromPairsDomain(init);
      forall k
        ensures k in FromPairs(ps).values <==> exists i :: 0 <= i < |ps| && ps[i].0 == k
      {
        if k in FromPairs(init).values {
          var i :| 0 <= i < |init| && init[i].0 == k;
          assert ps[i].0 == k;
        }
        if exists i :: 0 <= i < |ps| && ps[i].0 == k {
          var i :| 0 <= i < |ps| && ps[i].0 == k;
          if i < |init| {
            assert init[i].0 == k;
          }
        }
      }
    }
  }

  /** The value stored under a key is the one from the last pair with that key. */
  lemma {:induction false} FromPairsLastWins<V>(ps: seq<(string, V)>, i: nat)
    requires i < |ps|
    requires forall j :: i < j < |ps| ==> ps[j].0 != ps[i].0
    ensures ps[i].0 in FromPairs(ps).values && FromPairs(ps).values[ps[i].0] == ps[i].1
  {
    if i < |ps| - 1 {
      var init := ps[..|ps| - 1];
      FromPairsLastWins(init, i);
    }
  }

  /** Every stored value comes from a pair with its key. */
  lemma {:induction false} FromPairsValues<V>(ps: seq<(string, V)>)
    ensures forall k :: k in FromPairs(ps).values ==> exists i :: 0 <= i < |ps| && ps[i] == (k, FromPairs(ps).values[k])
  {
    if ps != [] {
      var init := ps[..|ps| - 1];
      FromPairsValues(init);
      forall k | k in FromPairs(ps).values
        ensures exists i :: 0 <= i < |ps| && ps[i] == (k, FromPairs(ps).values[k])
      {
        if k == ps[|ps| - 1].0 {
          assert ps[|ps| - 1] == (k, FromPairs(ps).values[k]);
        } else {
          assert k in FromPairs(init).values && FromPairs(ps).values[k] == FromPairs(init).values[k];
          var i :| 0 <= i < |init| && init[i] == (k, FromPairs(init).values[k]);
          assert ps[i] == (k, FromPairs(ps).values[k]);
        }
      }
    }
  }

  lemma FirstIndexOfSnoc<V>(ps: seq<(string, V)>, p: (string, V), k: string)
    ensures FirstIndexOf(ps, k) < |ps| ==> FirstIndexOf(ps + [p], k) == FirstIndexOf(ps, k)
    ensures FirstIndexOf(ps, k) == |ps| && p.0 == k ==> FirstIndexOf(ps + [p], k) == |ps|
  {
    var qs := ps + [p];
    var i := FirstIndexOf(ps, k);
    var i' := FirstIndexOf(qs, k);
    if i < |ps| {
      assert qs[i].0 == k;
    } else if p.0 == k {
      assert qs[|ps|].0 == k;
    }
  }

  /** A key already stored keeps the position of its first pair when a pair is appended. */
  lemma KeepsFirstIndex<V>(init: seq<(string, V)>, p: (string, V), m: OrderedMap<V>, k: string)
    requires m == FromPairs(init) && k in m.keys
    requires forall k :: k in m.values <==> exists i :: 0 <= i < |init| && init[i].0 == k
    ensures FirstIndexOf(init + [p], k) == FirstIndexOf(init, k) < |init|
  {
    var i :| 0 <= i < |init| && init[i].0 == k;
    FirstIndexOfSnoc(init, p, k);
  }

  /** Keys are listed in the order in which they first appear among the pairs. */
  lemma {:induction false} FromPairsOrder<V>(ps: seq<(string, V)>)
    ensures forall a, b :: 0 <= a < b < |FromPairs(ps).keys| ==>
      FirstIndexOf(ps, FromPairs(ps).keys[a]) < FirstIndexOf(ps, FromPairs(ps).keys[b]) < |ps|
  {
    if ps != [] {
      var init := ps[..|ps| - 1];
      var p := ps[|ps| - 1];
      assert init + [p] == ps;
      FromPairsOrder(init);
      FromPairsDomain(init);
      var m := FromPairs(init);
      var keys := FromPairs(ps).keys;
      forall a, b | 0 <= a < b < |keys|
        ensures FirstIndexOf(ps, keys[a]) < FirstIndexOf(ps, keys[b]) < |ps|
      {
        KeepsFirstIndex(init, p, m, keys[a]);
        if b < |m.keys| {
          KeepsFirstIndex(init, p, m, keys[b]);
        } else {
          FirstIndexOfSnoc(init, p, p.0);
        }
      }
    }
  }
}
