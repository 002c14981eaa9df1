/**
  A JavaScript `Map` whose keys are the ids of the records it holds, seen as the
  sequence of its values in insertion order. `get`, `set` and `delete` become
  Find, Put and Delete; `Array.from(map.values())` is the sequence itself.
 */
module KeyedSeq {
  import opened Wrappers

  /** Some record in `rows` is stored under `k`. */
  predicate HasKey<T>(rows: seq<T>, key: T -> int, k: int)
  {
    exists i :: 0 <= i < |rows| && key(rows[i]) == k
  }

  /** No key occurs twice, as in a real `Map`. */
  ghost predicate DistinctKeys<T>(rows: seq<T>, key: T -> int)
  {
    forall i, j :: 0 <= i < j < |rows| ==> key(rows[i]) != key(rows[j])
  }

  /** `map.get(k)`: the record stored under `k`, or nothing. */
  function Find<T>(rows: seq<T>, key: T -> int, k: int): (r: Option<T>)
    ensures r.None? <==> !HasKey(rows, key, k)
    ensures r.Some? ==> r.value in rows && key(r.value) == k
    ensures DistinctKeys(rows, key) ==>
      forall i :: 0 <= i < |rows| && key(rows[i]) == k ==> r == Some(rows[i])
  {
    if rows == [] then None
    else if key(rows[0]) == k then Some(rows[0])
    else
      var r := Find(rows[1..], key, k);
      assert HasKey(rows[1..], key, k) <==> HasKey(rows, key, k) by {
        if HasKey(rows, key, k) {
          var i :| 0 <= i < |rows| && key(rows[i]) == k;
          assert key(rows[1..][i - 1]) == k;
        }
      }
      assert DistinctKeys(rows, key) ==> DistinctKeys(rows[1..], key);
      assert forall i :: 1 <= i < |rows| ==> rows[i] == rows[1..][i - 1];
      r
  }

  /**
    `map.set(key(x), x)`: a new key goes to the end; an existing key keeps its
    place and gets the new record.
   */
  function Put<T>(rows: seq<T>, key: T -> int, x: T): (r: seq<T>)
    ensures !HasKey(rows, key, key(x)) ==> r == rows + [x]
    ensures DistinctKeys(rows, key) ==>
      forall i :: 0 <= i < |rows| && key(rows[i]) == key(x) ==> r == rows[i := x]
  {
    if rows == [] then [x]
    else if key(rows[0]) == key(x) then [x] + rows[1..]
    else
      var r := [rows[0]] + Put(rows[1..], key, x);
      assert HasKey(rows[1..], key, key(x)) ==> HasKey(rows, key, key(x)) by {
        if HasKey(rows[1..], key, key(x)) {
          var i :| 0 <= i < |rows[1..]| && key(rows[1..][i]) == key(x);
          assert key(rows[i + 1]) == key(x);
        }
      }
      assert DistinctKeys(rows, key) ==> DistinctKeys(rows[1..], key);
      assert forall i :: 1 <= i < |rows| ==> rows[i] == rows[1..][i - 1];
      r
  }

  /**
    `map.delete(k)`: the record stored under `k` leaves, the others keep their
    order; a missing key changes nothing.
   */
  function Delete<T>(rows: seq<T>, key: T -> int, k: int): (r: seq<T>)
    ensures !HasKey(rows, key, k) ==> r == rows
    ensures DistinctKeys(rows, key) ==>
      forall i :: 0 <= i < |rows| && key(rows[i]) == k ==> r == rows[..i] + rows[i + 1..]
  {
    if rows == [] then []
    else if key(rows[0]) == k then rows[1..]
    else
      var r := [rows[0]] + Delete(rows[1..], key, k);
      assert HasKey(rows[1..], key, k) ==> HasKey(rows, key, k) by {
        if HasKey(rows[1..], key, k) {
          var i :| 0 <= i < |rows[1..]| && key(rows[1..][i]) == k;
          assert key(rows[i + 1]) == k;
        }
      }
      assert DistinctKeys(rows, key) ==> DistinctKeys(rows[1..], key);
      assert forall i :: 1 <= i < |rows| ==> rows[i] == rows[1..][i - 1];
      assert forall i :: 1 <= i < |rows| ==>
        [rows[0]] + (rows[1..][..i - 1] + rows[1..][i..]) == rows[..i] + rows[i + 1..];
      r
  }

  /** After `map.delete(k)` the map is still a map, holds nothing under `k`, and holds nothing new. */
  lemma {:induction false} DeleteLeavesMap<T>(rows: seq<T>, key: T -> int, k: int)
    requires DistinctKeys(rows, key)
    ensures DistinctKeys(Delete(rows, key, k), key)
    ensures forall x :: x in Delete(rows, key, k) ==> x in rows && key(x) != k
  {
    if rows != [] {
      assert forall x :: x in rows[1..] ==> key(x) != key(rows[0]) by {
        forall x | x in rows[1..] ensures key(x) != key(rows[0]) {
          var j :| 0 <= j < |rows[1..]| && rows[1..][j] == x;
          assert rows[j + 1] == x;
        }
      }
      if key(rows[0]) != k {
        assert DistinctKeys(rows[1..], key);
        DeleteLeavesMap(rows[1..], key, k);
        var tail := Delete(rows[1..], key, k);
        var r := [rows[0]] + tail;
        assert Delete(rows, key, k) == r;
        forall a, b | 0 <= a < b < |r|
          ensures key(r[a]) != key(r[b])
        {
          assert r[b] == tail[b - 1];
          if a > 0 {
            assert r[a] == tail[a - 1];
          } else {
            assert r[b] in tail;
          }
        }
      }
    }
  }

  /** `xs.forEach(x => map.set(key(x), x))`. */
  function PutAll<T>(rows: seq<T>, key: T -> int, xs: seq<T>): seq<T>
    decreases |xs|
  {
    if xs == [] then rows
    else Put(PutAll(rows, key, xs[..|xs| - 1]), key, xs[|xs| - 1])
  }

  /** Setting records under keys the map does not hold, all different, appends them in order. */
  lemma {:induction false} PutAllFresh<T>(rows: seq<T>, key: T -> int, xs: seq<T>)
    requires DistinctKeys(xs, key)
    requires forall i, j :: 0 <= i < |rows| && 0 <= j < |xs| ==> key(rows[i]) != key(xs[j])
    ensures PutAll(rows, key, xs) == rows + xs
  {
    if xs != [] {
      var init, last := xs[..|xs| - 1], xs[|xs| - 1];
      PutAllFresh(rows, key, init);
      assert !HasKey(rows + init, key, key(last)) by {
        forall i | 0 <= i < |rows + init|
          ensures key((rows + init)[i]) != key(last)
        {
          if i >= |rows| {
            assert (rows + init)[i] == xs[i - |rows|];
          }
        }
      }
      assert init + [last] == xs;
    }
  }
}
