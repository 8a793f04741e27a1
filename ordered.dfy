/**
 * JavaScript `Set` and `Map` keep their entries in insertion order, and the engine iterates
 * over them (`forEach`, `for ... of`) to fan out callbacks and messages.  A set is modelled as a
 * sequence without duplicates and a map as a key order plus a finite map.
 */
module Ordered {

  predicate Distinct<T(==)>(s: seq<T>) {
    forall i, j :: 0 <= i < j < |s| ==> s[i] != s[j]
  }

  /** `set.add(x)`: appended when new, otherwise the set and its order are kept. */
  function Add<T(==)>(s: seq<T>, x: T): (r: seq<T>)
    ensures Distinct(s) ==> Distinct(r)
    ensures x in r && forall y :: y in s ==> y in r
    ensures forall y :: y in r ==> y in s || y == x
    ensures x in s ==> r == s
    ensures x !in s ==> r == s + [x]
  {
    if x in s then s else s + [x]
  }

  /** `set.delete(x)`: every other element stays, in its order. */
  function Remove<T(==)>(s: seq<T>, x: T): (r: seq<T>)
    ensures forall y :: y in r ==> y in s && y != x
    ensures forall y :: y in s && y != x ==> y in r
    ensures Distinct(s) ==> Distinct(r)
    ensures x !in s ==> r == s
    decreases |s|
  {
    if s == [] then []
    else if s[0] == x then Remove(s[1..], x)
    else
      var rest := Remove(s[1..], x);
      assert Distinct(s) ==> s[0] !in s[1..];
      [s[0]] + rest
  }

  /** Deleting an element of a set closes the gap where it stood; nothing else moves. */
  lemma {:induction false} RemoveAt<T>(s: seq<T>, x: T, k: nat)
    requires Distinct(s) && k < |s| && s[k] == x
    ensures Remove(s, x) == s[..k] + s[k + 1..]
    decreases k
  {
    if k == 0 {
      assert x !in s[1..] by {
        forall j | 0 <= j < |s[1..]| ensures s[1..][j] != x {
          assert s[0] != s[j + 1];
        }
      }
      assert s[..0] + s[1..] == s[1..];
    } else {
      assert s[0] != x by { assert s[0] != s[k]; }
      var tail := s[1..];
      assert Distinct(tail) by {
        forall i, j | 0 <= i < j < |tail| ensures tail[i] != tail[j] {
          assert s[i + 1] != s[j + 1];
        }
      }
      RemoveAt(tail, x, k - 1);
      assert [s[0]] + (tail[..k - 1] + tail[k..]) == s[..k] + s[k + 1..];
    }
  }

  /** An insertion-ordered map: `order` lists the keys of `entries`, each once, oldest first. */
  datatype OrderedMap<K(==), V> = OrderedMap(order: seq<K>, entries: map<K, V>) {

    ghost predicate Valid() {
      && Distinct(order)
      && (forall k :: k in order ==> k in entries)
      && (forall k :: k in entries ==> k in order)
    }

    /** `map.set(k, v)`: a new key goes last; an existing key keeps its place. */
    function Put(k: K, v: V): (r: OrderedMap<K, V>)
      ensures Valid() ==> r.Valid()
      ensures r.entries == entries[k := v]
      ensures Valid() && k in entries ==> r.order == order
      ensures k !in order ==> r.order == order + [k]
    {
      OrderedMap(Add(order, k), entries[k := v])
    }

    /** `map.delete(k)`: the other keys keep their places. */
    function Delete(k: K): (r: OrderedMap<K, V>)
      ensures Valid() ==> r.Valid()
      ensures r.entries == entries - {k}
      ensures k !in order ==> r.order == order
    {
      OrderedMap(Remove(order, k), entries - {k})
    }

    /** Deleting the key at position `i` removes exactly that position from the order. */
    lemma DeleteAt(i: nat)
      requires Valid() && i < |order|
      ensures Delete(order[i]).order == order[..i] + order[i + 1..]
      ensures Delete(order[i]).entries == entries - {order[i]}
    {
      RemoveAt(order, order[i], i);
    }
  }

  /** `new Map()`, and what `map.clear()` leaves. */
  function EmptyMap<K(==), V>(): (r: OrderedMap<K, V>)
    ensures r.Valid() && r.entries == map[]
  {
    OrderedMap([], map[])
  }
}
