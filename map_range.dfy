/**
 A Go `for k, v := range m { ... }` loop whose body performs at most one body
 call per entry. Go visits every entry of the map exactly once in an order it
 does not specify, so an iteration order is any sequence of the map's
 (key, value) entries that is a permutation of them.
 */
module MapRange {
  import opened Hcl

  /** order visits exactly the entries (with their multiplicities), in some order. */
  ghost predicate Permutes<E>(order: seq<E>, entries: seq<E>) {
    multiset(order) == multiset(entries)
  }

  /** The body after the loop has run over order, one effect per entry. */
  function RunLoop<E>(effect: E -> Effect, items: seq<Item>, order: seq<E>): seq<Item>
    decreases |order|
  {
    if order == [] then items
    else Apply(RunLoop(effect, items, order[..|order| - 1]), effect(order[|order| - 1]))
  }

  /** All the items the iterations over order add, one after the other. */
  function Emits<E>(effect: E -> Effect, order: seq<E>): seq<Item>
    decreases |order|
  {
    if order == [] then []
    else Emits(effect, order[..|order| - 1]) + Emitted(effect(order[|order| - 1]))
  }

  lemma {:induction false} EmitsConcat<E>(effect: E -> Effect, a: seq<E>, b: seq<E>)
    ensures Emits(effect, a + b) == Emits(effect, a) + Emits(effect, b)
    decreases |b|
  {
    if b == [] {
      assert a + b == a;
    } else {
      var n := |b| - 1;
      assert (a + b)[..|a + b| - 1] == a + b[..n];
      assert (a + b)[|a + b| - 1] == b[n];
      EmitsConcat(effect, a, b[..n]);
    }
  }

  lemma EmitsSingle<E>(effect: E -> Effect, e: E)
    ensures Emits(effect, [e]) == Emitted(effect(e))
  {
    assert [e][..0] == [];
  }

  /** One more step of Emits on a prefix of s; used to unfold Emits over a listing. */
  lemma EmitsPrefix<E>(effect: E -> Effect, s: seq<E>, k: nat)
    requires 0 < k <= |s|
    ensures Emits(effect, s[..k]) == Emits(effect, s[..k - 1]) + Emitted(effect(s[k - 1]))
  {
    assert s[..k][..k - 1] == s[..k - 1];
  }

  /** Emits over a listing of four entries whose items are known. */
  lemma EmitsFour<E>(effect: E -> Effect, x0: E, x1: E, x2: E, x3: E,
                     i0: seq<Item>, i1: seq<Item>, i2: seq<Item>, i3: seq<Item>)
    requires Emitted(effect(x0)) == i0 && Emitted(effect(x1)) == i1
    requires Emitted(effect(x2)) == i2 && Emitted(effect(x3)) == i3
    ensures Emits(effect, [x0, x1, x2, x3]) == i0 + i1 + i2 + i3
  {
    var s := [x0, x1, x2, x3];
    assert s[..0] == [];
    EmitsPrefix(effect, s, 1);
    EmitsPrefix(effect, s, 2);
    EmitsPrefix(effect, s, 3);
    EmitsPrefix(effect, s, 4);
    assert s[..4] == s;
  }

  /** Emits over a listing of two entries whose items are known. */
  lemma EmitsTwo<E>(effect: E -> Effect, x0: E, x1: E, i0: seq<Item>, i1: seq<Item>)
    requires Emitted(effect(x0)) == i0 && Emitted(effect(x1)) == i1
    ensures Emits(effect, [x0, x1]) == i0 + i1
  {
    var s := [x0, x1];
    assert s[..0] == [];
    EmitsPrefix(effect, s, 1);
    EmitsPrefix(effect, s, 2);
    assert s[..2] == s;
  }

  /** An entry between two pieces emits its items between theirs. */
  lemma EmitsAround<E>(effect: E -> Effect, front: seq<E>, x: E, back: seq<E>)
    ensures Emits(effect, front + ([x] + back)) == Emits(effect, front) + Emitted(effect(x)) + Emits(effect, back)
  {
    EmitsConcat(effect, front, [x] + back);
    EmitsConcat(effect, [x], back);
    EmitsSingle(effect, x);
  }

  lemma CutAt<E>(ys: seq<E>, j: nat)
    requires j < |ys|
    ensures ys == ys[..j] + ([ys[j]] + ys[j + 1..])
  {
  }

  lemma MultisetMiddle<T>(a: seq<T>, b: seq<T>, c: seq<T>)
    ensures multiset(a + b + c) == multiset(a + c) + multiset(b)
  {
  }

  /** Taking the entry at j out of ys takes exactly its items out of what ys emits. */
  lemma EmitsRemove<E>(effect: E -> Effect, ys: seq<E>, j: nat)
    requires j < |ys|
    ensures multiset(Emits(effect, ys)) ==
            multiset(Emits(effect, ys[..j] + ys[j + 1..])) + multiset(Emitted(effect(ys[j])))
  {
    CutAt(ys, j);
    EmitsAround(effect, ys[..j], ys[j], ys[j + 1..]);
    EmitsConcat(effect, ys[..j], ys[j + 1..]);
    MultisetMiddle(Emits(effect, ys[..j]), Emitted(effect(ys[j])), Emits(effect, ys[j + 1..]));
  }

  /** The items added do not depend on the iteration order, as a multiset. */
  lemma {:induction false} EmitsPermutation<E>(effect: E -> Effect, xs: seq<E>, ys: seq<E>)
    requires Permutes(xs, ys)
    ensures multiset(Emits(effect, xs)) == multiset(Emits(effect, ys))
    decreases |xs|
  {
    if xs == [] {
      assert |multiset(ys)| == 0;
      assert ys == [];
    } else {
      var n := |xs| - 1;
      var e := xs[n];
      assert xs == xs[..n] + [e];
      assert multiset(xs) == multiset(xs[..n]) + multiset{e};
      assert e in multiset(ys) by { assert e in multiset(xs); }
      var j :| 0 <= j < |ys| && ys[j] == e;
      assert ys == ys[..j] + [e] + ys[j + 1..];
      assert multiset(ys) == multiset(ys[..j] + ys[j + 1..]) + multiset{e};
      var rest := ys[..j] + ys[j + 1..];
      forall x ensures multiset(xs[..n])[x] == multiset(rest)[x] {
        assert multiset(xs)[x] == multiset(ys)[x];
      }
      assert multiset(xs[..n]) == multiset(rest);
      EmitsRemove(effect, ys, j);
      EmitsPermutation(effect, xs[..n], ys[..j] + ys[j + 1..]);
    }
  }

  /** The entries of a map: no two of them share a key. */
  ghost predicate DistinctKeys<K, V>(entries: seq<(K, V)>) {
    forall i, j :: 0 <= i < j < |entries| ==> entries[i].0 != entries[j].0
  }

  /** A map holds each entry at most once. */
  lemma {:induction false} DistinctKeysCount<K, V>(entries: seq<(K, V)>, e: (K, V))
    requires DistinctKeys(entries)
    ensures multiset(entries)[e] <= 1
  {
    if entries != [] {
      var n := |entries| - 1;
      assert entries == entries[..n] + [entries[n]];
      DistinctKeysCount(entries[..n], e);
      if entries[n] == e {
        assert e !in entries[..n];
      }
    }
  }

  /** Two entries of a map with the same key are the same entry. */
  lemma DistinctKeysSameKey<K, V>(entries: seq<(K, V)>, e1: (K, V), e2: (K, V))
    requires DistinctKeys(entries)
    requires e1 in entries && e2 in entries && e1.0 == e2.0
    ensures e1 == e2
  {
    var i :| 0 <= i < |entries| && entries[i] == e1;
    var j :| 0 <= j < |entries| && entries[j] == e2;
    assert !(i < j) && !(j < i);
  }

  /** Iterations over entries (as a multiset) set every attribute name at most once. */
  ghost predicate SetsEachNameOnce<E(!new)>(effect: E -> Effect, entries: multiset<E>) {
    && (forall e :: effect(e).SetAttributeEffect? ==> entries[e] <= 1)
    && (forall e1, e2 ::
          (e1 in entries && e2 in entries &&
           effect(e1).SetAttributeEffect? && effect(e2).SetAttributeEffect? &&
           effect(e1).name == effect(e2).name) ==> e1 == e2)
  }

  /** When only e sets its attribute, that attribute is set by an iteration only if e is visited. */
  lemma {:induction false} NameSetOnlyBy<E>(effect: E -> Effect, order: seq<E>, e: E)
    requires effect(e).SetAttributeEffect?
    requires forall x :: x in multiset(order) && effect(x).SetAttributeEffect? && effect(x).name == effect(e).name ==> x == e
    ensures effect(e).name in Names(Emits(effect, order)) ==> e in multiset(order)
    decreases |order|
  {
    if order != [] {
      var n := |order| - 1;
      assert order == order[..n] + [order[n]];
      NamesConcat(Emits(effect, order[..n]), Emitted(effect(order[n])));
      NameSetOnlyBy(effect, order[..n], e);
    }
  }

  /** No iteration sets the name n, so n is not set at all. */
  lemma {:induction false} NameNeverSet<E>(effect: E -> Effect, order: seq<E>, n: string)
    requires forall e :: effect(e).SetAttributeEffect? ==> effect(e).name != n
    ensures n !in Names(Emits(effect, order))
    decreases |order|
  {
    if order != [] {
      var k := |order| - 1;
      NamesConcat(Emits(effect, order[..k]), Emitted(effect(order[k])));
      NameNeverSet(effect, order[..k], n);
    }
  }

  /** When no iteration appends a block, the loop adds only attributes. */
  lemma {:induction false} EmitsOnlyAttributes<E>(effect: E -> Effect, order: seq<E>)
    requires forall e :: !effect(e).AppendBlockEffect?
    ensures forall i :: 0 <= i < |Emits(effect, order)| ==> Emits(effect, order)[i].Attribute?
    decreases |order|
  {
    if order != [] {
      EmitsOnlyAttributes(effect, order[..|order| - 1]);
    }
  }

  /**
   On a body holding no attribute, a loop that sets each name at most once
   only appends: SetAttributeValue never finds an attribute to replace.
   */
  lemma {:induction false} RunLoopAppends<E(!new)>(effect: E -> Effect, prefix: seq<Item>, order: seq<E>)
    requires Names(prefix) == {}
    requires SetsEachNameOnce(effect, multiset(order))
    ensures RunLoop(effect, prefix, order) == prefix + Emits(effect, order)
    decreases |order|
  {
    if order != [] {
      var n := |order| - 1;
      var e := order[n];
      var before := order[..n];
      assert order == before + [e];
      assert multiset(order) == multiset(before) + multiset{e};
      RunLoopAppends(effect, prefix, before);
      var eff := effect(e);
      if eff.SetAttributeEffect? {
        NamesConcat(prefix, Emits(effect, before));
        NameSetOnlyBy(effect, before, e);
        assert eff.name !in Names(prefix + Emits(effect, before));
      }
      assert prefix + Emits(effect, before) + Emitted(eff) == prefix + Emits(effect, order);
    }
  }
}
