/** Rust's vector operations the plugins use: indexing with `get`, filtering, flattening, and hash-map enumeration. */
module Collections {
  import opened Wrappers

  lemma AppendAssociative<T>(a: seq<T>, b: seq<T>, c: seq<T>)
    ensures a + (b + c) == (a + b) + c
  {
  }

  /** `Vec::get`. */
  function Get<T>(xs: seq<T>, i: nat): Option<T> {
    if i < |xs| then Some(xs[i]) else None
  }

  /** The elements of `s` that satisfy `p`, in their original order. */
  function Keep<T(==)>(s: seq<T>, p: T -> bool): (r: seq<T>)
    ensures |r| <= |s|
    ensures forall i :: 0 <= i < |r| ==> p(r[i]) && r[i] in s
  {
    if s == [] then [] else (if p(s[0]) then [s[0]] else []) + Keep(s[1..], p)
  }

  /** `a` is `b` with some elements left out and the rest in their order. */
  predicate IsSubsequence<T(==)>(a: seq<T>, b: seq<T>)
    decreases |b|
  {
    if a == [] then true
    else if b == [] then false
    else if a[0] == b[0] then IsSubsequence(a[1..], b[1..])
    else IsSubsequence(a, b[1..])
  }

  lemma {:induction false} SubsequenceOfTail<T>(a: seq<T>, b: seq<T>)
    requires b != [] && IsSubsequence(a, b[1..])
    ensures IsSubsequence(a, b)
    decreases |b|, 0
  {
    if a != [] && a[0] == b[0] {
      // b[0] matches a[0]; the rest of `a` still fits in b[1..]
      SubsequenceDropFirst(a, b[1..]);
    }
  }

  lemma {:induction false} SubsequenceDropFirst<T>(a: seq<T>, b: seq<T>)
    requires a != [] && IsSubsequence(a, b)
    ensures IsSubsequence(a[1..], b)
    decreases |b|, 1
  {
    assert b != [];
    if a[0] == b[0] {
      SubsequenceOfTail(a[1..], b);
    } else {
      SubsequenceDropFirst(a, b[1..]);
      SubsequenceOfTail(a[1..], b);
    }
  }

  /** Filtering keeps the survivors in their original order. */
  lemma {:induction false} KeepIsSubsequence<T>(s: seq<T>, p: T -> bool)
    ensures IsSubsequence(Keep(s, p), s)
  {
    if s != [] {
      KeepIsSubsequence(s[1..], p);
      var tail := Keep(s[1..], p);
      if p(s[0]) {
        assert Keep(s, p) == [s[0]] + tail;
        assert ([s[0]] + tail)[1..] == tail;
      } else {
        assert Keep(s, p) == tail;
        SubsequenceOfTail(tail, s);
      }
    }
  }

  /** Every element that satisfies `p` is kept as often as it occurs; no other element is kept. */
  lemma {:induction false} KeepCounts<T>(s: seq<T>, p: T -> bool, x: T)
    ensures multiset(Keep(s, p))[x] == if p(x) then multiset(s)[x] else 0
  {
    if s != [] {
      KeepCounts(s[1..], p, x);
      assert s == [s[0]] + s[1..];
      assert multiset(s) == multiset([s[0]]) + multiset(s[1..]);
    }
  }

  /** Filtering `s + [x]` filters `s`, then keeps or drops `x`. */
  lemma {:induction false} KeepSnoc<T>(s: seq<T>, x: T, p: T -> bool)
    ensures Keep(s + [x], p) == Keep(s, p) + (if p(x) then [x] else [])
  {
    var t := s + [x];
    var last := if p(x) then [x] else [];
    if s == [] {
      assert t == [x] && t[1..] == [];
      assert Keep(t, p) == last + Keep([], p);
    } else {
      KeepSnoc(s[1..], x, p);
      assert t[0] == s[0] && t[1..] == s[1..] + [x];
      var head := if p(s[0]) then [s[0]] else [];
      assert Keep(t, p) == head + Keep(s[1..] + [x], p);
      assert Keep(t, p) == head + (Keep(s[1..], p) + last);
      assert Keep(s, p) == head + Keep(s[1..], p);
    }
  }

  /** When every element satisfies `p`, nothing is dropped. */
  lemma {:induction false} KeepAll<T>(s: seq<T>, p: T -> bool)
    requires forall i :: 0 <= i < |s| ==> p(s[i])
    ensures Keep(s, p) == s
  {
    if s != [] {
      KeepAll(s[1..], p);
      assert [s[0]] + s[1..] == s;
    }
  }

  /** `order` lists every entry of `m` exactly once, in some order (the iteration order of a hash map). */
  ghost predicate Enumerates<K, V>(order: seq<(K, V)>, m: map<K, V>) {
    && (forall i, j :: 0 <= i < j < |order| ==> order[i].0 != order[j].0)
    && (forall i :: 0 <= i < |order| ==> order[i].0 in m && m[order[i].0] == order[i].1)
    && (forall k :: k in m ==> exists i :: 0 <= i < |order| && order[i].0 == k)
  }

  /** The map built by inserting the entries of `order` one after the other (a later key overwrites). */
  function MapOf<K, V>(order: seq<(K, V)>): map<K, V> {
    if order == [] then map[]
    else MapOf(order[..|order| - 1])[order[|order| - 1].0 := order[|order| - 1].1]
  }

  /** Inserting an enumeration of a map, in any order, rebuilds that map. */
  lemma {:induction false} MapOfEnumeration<K, V>(order: seq<(K, V)>, m: map<K, V>)
    requires Enumerates(order, m)
    ensures MapOf(order) == m
  {
    if order == [] {
      assert forall k :: k !in m;
    } else {
      var n := |order| - 1;
      var k, v := order[n].0, order[n].1;
      EnumeratesInit(order, m);
      MapOfEnumeration(order[..n], m - {k});
      assert m == (m - {k})[k := v];
    }
  }

  /** Without its last entry, an enumeration lists the map without that entry's key. */
  lemma EnumeratesInit<K, V>(order: seq<(K, V)>, m: map<K, V>)
    requires Enumerates(order, m) && order != []
    ensures Enumerates(order[..|order| - 1], m - {order[|order| - 1].0})
  {
    var n := |order| - 1;
    var pre := order[..n];
    forall k2 | k2 in m - {order[n].0}
      ensures exists i :: 0 <= i < |pre| && pre[i].0 == k2
    {
      var i :| 0 <= i < |order| && order[i].0 == k2;
      assert i != n && pre[i].0 == k2;
    }
  }

  /**
   * `order` lists, each once, the entries of `m` whose keys are not in
   * `remaining`: an enumeration of `m` that has got as far as `remaining`.
   */
  ghost predicate ListedExcept<K, V>(order: seq<(K, V)>, m: map<K, V>, remaining: set<K>) {
    && remaining <= m.Keys
    && (forall i, j :: 0 <= i < j < |order| ==> order[i].0 != order[j].0)
    && (forall i :: 0 <= i < |order| ==> order[i].0 in m && m[order[i].0] == order[i].1 && order[i].0 !in remaining)
    && (forall k :: k in m && k !in remaining ==> exists i :: 0 <= i < |order| && order[i].0 == k)
  }

  lemma ListedExceptStart<K, V>(m: map<K, V>)
    ensures ListedExcept([], m, m.Keys)
  {
  }

  /** Listing one more remaining key's entry. */
  lemma ListedExceptStep<K, V>(order: seq<(K, V)>, m: map<K, V>, remaining: set<K>, k: K)
    requires ListedExcept(order, m, remaining) && k in remaining
    ensures ListedExcept(order + [(k, m[k])], m, remaining - {k})
  {
    var next := order + [(k, m[k])];
    forall k2 | k2 in m && k2 !in remaining - {k}
      ensures exists i :: 0 <= i < |next| && next[i].0 == k2
    {
      if k2 == k {
        assert next[|order|].0 == k2;
      } else {
        var i :| 0 <= i < |order| && order[i].0 == k2;
        assert next[i].0 == k2;
      }
    }
  }

  /** With no key remaining, the entries listed enumerate the map. */
  lemma ListedExceptDone<K, V>(order: seq<(K, V)>, m: map<K, V>)
    requires ListedExcept(order, m, {})
    ensures Enumerates(order, m)
  {
  }

  /** The elements of every inner sequence, one sequence after the other (`flat_map` / `flatten`). */
  function Flatten<T>(xss: seq<seq<T>>): seq<T> {
    if xss == [] then [] else Flatten(xss[..|xss| - 1]) + xss[|xss| - 1]
  }

  /** An element is in the flattened sequence exactly when it is in one of the inner sequences. */
  lemma {:induction false} FlattenMembership<T>(xss: seq<seq<T>>, x: T)
    ensures x in Flatten(xss) <==> exists t :: 0 <= t < |xss| && x in xss[t]
  {
    if xss != [] {
      var n := |xss| - 1;
      FlattenMembership(xss[..n], x);
      if x in Flatten(xss[..n]) {
        var t :| 0 <= t < n && x in xss[..n][t];
        assert x in xss[t];
      }
      if exists t :: 0 <= t < |xss| && x in xss[t] {
        var t :| 0 <= t < |xss| && x in xss[t];
        if t < n {
          assert x in xss[..n][t];
        }
      }
    }
  }

  /** One more inner sequence is appended to the flattened result. */
  lemma {:induction false} FlattenSnoc<T>(xss: seq<seq<T>>, xs: seq<T>)
    ensures Flatten(xss + [xs]) == Flatten(xss) + xs
  {
    assert (xss + [xs])[..|xss|] == xss;
  }
}
