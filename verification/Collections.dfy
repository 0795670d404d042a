/** Shared vocabulary: an optional value, and the insertion-ordered dictionary that a
    JavaScript `Map` is. */
module Collections {

  datatype Option<+T> = None | Some(value: T)

  /** The elements of `s` as a set. */
  function Elements<T>(s: seq<T>): set<T> {
    set x | x in s
  }

  ghost predicate Distinct<T>(s: seq<T>) {
    forall i, j :: 0 <= i < j < |s| ==> s[i] != s[j]
  }

  /** `s` without any occurrence of `x`, in order. */
  function Without<T(==)>(s: seq<T>, x: T): seq<T> {
    if s == [] then []
    else if s[0] == x then Without(s[1..], x)
    else [s[0]] + Without(s[1..], x)
  }

  lemma {:induction false} WithoutElements<T>(s: seq<T>, x: T)
    ensures forall y | y in Without(s, x) :: y in s && y != x
    ensures forall y | y in s && y != x :: y in Without(s, x)
  {
    if s != [] {
      WithoutElements(s[1..], x);
    }
  }

  lemma {:induction false} WithoutDistinct<T>(s: seq<T>, x: T)
    requires Distinct(s)
    ensures Distinct(Without(s, x))
  {
    if s != [] {
      assert Distinct(s[1..]);
      WithoutDistinct(s[1..], x);
      WithoutElements(s[1..], x);
      assert s[0] !in s[1..];
      assert s[0] !in Without(s[1..], x);
    }
  }

  lemma {:induction false} WithoutAbsent<T>(s: seq<T>, x: T)
    requires x !in s
    ensures Without(s, x) == s
  {
    if s != [] {
      WithoutAbsent(s[1..], x);
    }
  }

  lemma {:induction false} WithoutAppend<T>(s: seq<T>, t: seq<T>, x: T)
    ensures Without(s + t, x) == Without(s, x) + Without(t, x)
  {
    if s == [] {
      assert s + t == t;
    } else {
      assert (s + t)[1..] == s[1..] + t;
      WithoutAppend(s[1..], t, x);
    }
  }

  /** A sequence has at least as many places as it has different elements. */
  lemma {:induction false} ElementsBound<T>(s: seq<T>)
    ensures |Elements(s)| <= |s|
  {
    if s != [] {
      var last := s[|s| - 1];
      var init := s[..|s| - 1];
      ElementsBound(init);
      assert s == init + [last];
      assert Elements(s) == Elements(init) + {last};
    }
  }

  lemma SubsetBound<T>(small: set<T>, big: set<T>)
    requires small <= big
    ensures |small| <= |big|
    ensures |small| == |big| ==> small == big
  {
    assert |big| == |small| + |big - small| by {
      assert small + (big - small) == big;
    }
  }

  /** A JavaScript `Map`: its contents, and its keys in insertion order. */
  datatype Dict<K, V> = Dict(keys: seq<K>, at: map<K, V>) {
    ghost predicate Ok() {
      && Distinct(keys)
      && (forall k | k in keys :: k in at)
      && (forall k | k in at :: k in keys)
    }

    /** Setting a key that is present keeps its place; a new key goes last. */
    function Put(k: K, v: V): Dict<K, V> {
      Dict(if k in at then keys else keys + [k], at[k := v])
    }

    function Remove(k: K): Dict<K, V> {
      Dict(Without(keys, k), at - {k})
    }
  }

  /** Every key in `ks` deleted, one after another. */
  function RemoveAll<K(==), V>(d: Dict<K, V>, ks: seq<K>): Dict<K, V>
    decreases |ks|
  {
    if ks == [] then d else RemoveAll(d.Remove(ks[0]), ks[1..])
  }

  lemma {:induction false} RemoveAllEffect<K, V>(d: Dict<K, V>, ks: seq<K>)
    requires d.Ok()
    ensures RemoveAll(d, ks).Ok()
    ensures RemoveAll(d, ks).at == d.at - Elements(ks)
    decreases |ks|
  {
    if ks != [] {
      RemoveOk(d, ks[0]);
      RemoveAllEffect(d.Remove(ks[0]), ks[1..]);
      assert ks == [ks[0]] + ks[1..];
      assert Elements(ks) == {ks[0]} + Elements(ks[1..]);
    }
  }

  lemma {:induction false} RemoveAllAppend<K, V>(d: Dict<K, V>, ks: seq<K>, k: K)
    ensures RemoveAll(d, ks + [k]) == RemoveAll(d, ks).Remove(k)
    decreases |ks|
  {
    if ks == [] {
      assert ks + [k] == [k];
      assert RemoveAll(d, [k]) == RemoveAll(d.Remove(k), []);
    } else {
      assert (ks + [k])[1..] == ks[1..] + [k];
      RemoveAllAppend(d.Remove(ks[0]), ks[1..], k);
    }
  }

  /** The values in insertion order. */
  function Values<K, V>(d: Dict<K, V>): seq<V>
    requires forall k | k in d.keys :: k in d.at
  {
    seq(|d.keys|, i requires 0 <= i < |d.keys| => d.at[d.keys[i]])
  }

  function Flatten<T>(ss: seq<seq<T>>): seq<T> {
    if ss == [] then [] else ss[0] + Flatten(ss[1..])
  }

  /** Every element of a part is an element of the whole. */
  lemma {:induction false} FlattenHas<T>(ss: seq<seq<T>>, i: nat, x: T)
    requires i < |ss| && x in ss[i]
    ensures x in Flatten(ss)
  {
    if i > 0 {
      FlattenHas(ss[1..], i - 1, x);
    }
  }

  /** Every element of the whole comes from some part. */
  lemma {:induction false} FlattenFrom<T>(ss: seq<seq<T>>, x: T) returns (i: nat)
    requires x in Flatten(ss)
    ensures i < |ss| && x in ss[i]
  {
    if x in ss[0] {
      i := 0;
    } else {
      i := FlattenFrom(ss[1..], x);
      i := i + 1;
    }
  }

  lemma {:induction false} FlattenAppend<T>(ss: seq<seq<T>>, t: seq<T>)
    ensures Flatten(ss + [t]) == Flatten(ss) + t
  {
    if ss == [] {
      assert Flatten([t]) == t + Flatten<T>([]);
    } else {
      assert (ss + [t])[1..] == ss[1..] + [t];
      FlattenAppend(ss[1..], t);
    }
  }

  function EmptyDict<K, V>(): Dict<K, V> {
    Dict([], map[])
  }

  lemma PutOk<K, V>(d: Dict<K, V>, k: K, v: V)
    requires d.Ok()
    ensures d.Put(k, v).Ok()
  {
  }

  lemma RemoveOk<K, V>(d: Dict<K, V>, k: K)
    requires d.Ok()
    ensures d.Remove(k).Ok()
  {
    WithoutElements(d.keys, k);
    WithoutDistinct(d.keys, k);
  }
}
