/** The array helpers of src/helpers/arrify.ts: `flatten` of arbitrarily
    nested arrays into one array of their non-array entries. */
module Arrify {

  /** An entry of a JavaScript array: a non-array value or a nested array. */
  datatype Nested<T> = Item(value: T) | Items(elems: seq<Nested<T>>)

  /** The non-array entries of `arr`, left to right and depth first. */
  function Leaves<T>(arr: seq<Nested<T>>): seq<T>
    decreases arr
  {
    if |arr| == 0 then []
    else
      var head := match arr[0]
        case Item(v) => [v]
        case Items(elems) => Leaves(elems);
      head + Leaves(arr[1..])
  }

  /** The number of non-array entries, counted independently of `Leaves`. */
  function LeafCount<T>(arr: seq<Nested<T>>): nat
    decreases arr
  {
    if |arr| == 0 then 0
    else
      var head := match arr[|arr| - 1]
        case Item(_) => 1
        case Items(elems) => LeafCount(elems);
      LeafCount(arr[..|arr| - 1]) + head
  }

  /** The mutable array `$flatten` pushes into. */
  class FlatArray<T> {
    var items: seq<T>

    constructor ()
      ensures items == []
    {
      items := [];
    }

    method Push(x: T)
      modifies this
      ensures items == old(items) + [x]
    {
      items := items + [x];
    }
  }

  /** `$flatten(array, result)`: walks `array` with a for loop, recursing into
      nested arrays and pushing every other entry onto `result`. */
  method FlattenInto<T>(arr: seq<Nested<T>>, result: FlatArray<T>)
    modifies result
    ensures result.items == old(result.items) + Leaves(arr)
    decreases arr
  {
    for i := 0 to |arr|
      invariant result.items == old(result.items) + Leaves(arr[..i])
    {
      LeavesSplit(arr[..i], [arr[i]]);
      assert arr[..i + 1] == arr[..i] + [arr[i]];
      match arr[i]
      case Items(elems) =>
        FlattenInto(elems, result);
      case Item(v) =>
        result.Push(v);
    }
    assert arr[..|arr|] == arr;
  }

  /** `arrify.flatten(array)`: the non-array entries, in order, in a new array. */
  method Flatten<T>(arr: seq<Nested<T>>) returns (r: seq<T>)
    ensures r == Leaves(arr)
  {
    var result := new FlatArray<T>();
    FlattenInto(arr, result);
    r := result.items;
  }

  /** Flattening distributes over concatenation. */
  lemma {:induction false} LeavesSplit<T>(a: seq<Nested<T>>, b: seq<Nested<T>>)
    ensures Leaves(a + b) == Leaves(a) + Leaves(b)
    decreases |a|
  {
    if |a| > 0 {
      assert (a + b)[0] == a[0];
      assert (a + b)[1..] == a[1..] + b;
      LeavesSplit(a[1..], b);
    } else {
      assert a + b == b;
    }
  }

  /** Counting from the back splits the same way. */
  lemma {:induction false} LeafCountSplit<T>(a: seq<Nested<T>>, b: seq<Nested<T>>)
    ensures LeafCount(a + b) == LeafCount(a) + LeafCount(b)
    decreases |b|
  {
    if |b| == 0 {
      assert a + b == a;
    } else {
      var ab := a + b;
      assert ab[..|ab| - 1] == a + b[..|b| - 1];
      assert ab[|ab| - 1] == b[|b| - 1];
      LeafCountSplit(a, b[..|b| - 1]);
    }
  }

  /** The result has one entry per non-array entry of the input. */
  lemma {:induction false} LeavesLength<T>(arr: seq<Nested<T>>)
    ensures |Leaves(arr)| == LeafCount(arr)
    decreases arr
  {
    if |arr| > 0 {
      assert arr == [arr[0]] + arr[1..];
      LeafCountSplit([arr[0]], arr[1..]);
      assert LeafCount([arr[0]]) == match arr[0] case Item(_) => 1 case Items(e) => LeafCount(e) by {
        assert [arr[0]][..0] == [];
      }
      match arr[0] {
        case Item(_) =>
        case Items(elems) => LeavesLength(elems);
      }
      LeavesLength(arr[1..]);
    }
  }

  /** `x` is a non-array entry of `arr` at some depth. */
  predicate Occurs<T(==)>(x: T, arr: seq<Nested<T>>)
    decreases arr
  {
    exists k :: 0 <= k < |arr| && (arr[k] == Item(x) || (arr[k].Items? && Occurs(x, arr[k].elems)))
  }

  /** Exactly the non-array entries found at any depth make up the result. */
  lemma {:induction false} LeavesMembers<T>(x: T, arr: seq<Nested<T>>)
    ensures x in Leaves(arr) <==> Occurs(x, arr)
    decreases arr
  {
    if |arr| > 0 {
      var rest := arr[1..];
      LeavesMembers(x, rest);
      match arr[0] {
        case Item(v) =>
        case Items(elems) => LeavesMembers(x, elems);
      }
      if Occurs(x, rest) {
        var k :| 0 <= k < |rest| && (rest[k] == Item(x) || (rest[k].Items? && Occurs(x, rest[k].elems)));
        assert arr[k + 1] == rest[k];
      }
      if Occurs(x, arr) {
        var k :| 0 <= k < |arr| && (arr[k] == Item(x) || (arr[k].Items? && Occurs(x, arr[k].elems)));
        if k > 0 {
          assert rest[k - 1] == arr[k];
        }
      }
    }
  }

  /** An array whose entries are all non-array values. */
  predicate IsFlat<T>(arr: seq<Nested<T>>)
  {
    forall k :: 0 <= k < |arr| ==> arr[k].Item?
  }

  /** The values as a JavaScript array of non-array entries. */
  function Lift<T>(s: seq<T>): (r: seq<Nested<T>>)
    ensures |r| == |s| && IsFlat(r)
    ensures forall k :: 0 <= k < |s| ==> r[k] == Item(s[k])
  {
    seq(|s|, k requires 0 <= k < |s| => Item(s[k]))
  }

  /** On an array without nested arrays, flatten gives back the same entries. */
  lemma {:induction false} FlattenFlat<T>(s: seq<T>)
    ensures Leaves(Lift(s)) == s
    decreases |s|
  {
    if |s| > 0 {
      assert Lift(s)[1..] == Lift(s[1..]);
      FlattenFlat(s[1..]);
      assert s == [s[0]] + s[1..];
    }
  }

  /** The result contains no nested arrays, so flattening it again changes nothing. */
  lemma FlattenIdempotent<T>(arr: seq<Nested<T>>)
    ensures IsFlat(Lift(Leaves(arr)))
    ensures Leaves(Lift(Leaves(arr))) == Leaves(arr)
  {
    FlattenFlat(Leaves(arr));
  }
}
