/** Vocabulary shared by the modules: absent values, byte strings, and the first rows of a query. */
module Wrappers {
  /** SQL NULL, a missing JSON field, an undefined property. */
  datatype Option<+T> = None | Some(value: T) {
    function GetOr(default: T): T {
      if Some? then value else default
    }
  }

  type byte = x: int | 0 <= x < 256

  type Bytes = seq<byte>

  predicate AtMost(a: (int, int), b: (int, int)) {
    a.0 < b.0 || (a.0 == b.0 && a.1 <= b.1)
  }

  /** The answers of ORDER BY key LIMIT n: at most `limit` of the candidates, those with the least keys, in order. */
  ghost predicate IsFirst<T(!new)>(order: seq<T>, candidates: set<T>, key: T -> (int, int), limit: nat) {
    && |order| <= limit
    && (forall i, j :: 0 <= i < j < |order| ==> order[i] != order[j] && AtMost(key(order[i]), key(order[j])))
    && (forall x :: x in order ==> x in candidates)
    && (forall x, y :: x in order && y in candidates && y !in order ==> AtMost(key(x), key(y)))
    && (|order| < limit ==> forall x :: x in candidates ==> x in order)
  }

  ghost predicate IsLeast<T(!new)>(x: T, candidates: set<T>, key: T -> (int, int)) {
    x in candidates && forall y :: y in candidates ==> AtMost(key(x), key(y))
  }

  lemma HasLeast<T(!new)>(candidates: set<T>, key: T -> (int, int))
    requires candidates != {}
    ensures exists x :: IsLeast(x, candidates, key)
    decreases candidates
  {
    var x :| x in candidates;
    var rest := candidates - {x};
    if rest == {} {
      assert candidates == {x};
      assert IsLeast(x, candidates, key);
    } else {
      HasLeast(rest, key);
      var l :| IsLeast(l, rest, key);
      assert IsLeast(if AtMost(key(x), key(l)) then x else l, candidates, key);
    }
  }

  /** A prefix of the answer: nothing left over comes before anything taken. */
  ghost predicate IsPrefix<T(!new)>(order: seq<T>, left: set<T>, candidates: set<T>, key: T -> (int, int)) {
    && (forall i, j :: 0 <= i < j < |order| ==> order[i] != order[j] && AtMost(key(order[i]), key(order[j])))
    && (forall x :: x in candidates <==> x in order || x in left)
    && (forall x, y :: x in order && y in left ==> x != y && AtMost(key(x), key(y)))
  }

  lemma TakeLeast<T(!new)>(order: seq<T>, left: set<T>, candidates: set<T>, key: T -> (int, int), p: T)
    requires IsPrefix(order, left, candidates, key) && IsLeast(p, left, key)
    ensures IsPrefix(order + [p], left - {p}, candidates, key)
  {
  }

  method PickFirst<T(!new, ==)>(candidates: set<T>, key: T -> (int, int), limit: nat) returns (order: seq<T>)
    ensures IsFirst(order, candidates, key, limit)
  {
    order := [];
    var left := candidates;
    while left != {} && |order| < limit
      invariant |order| <= limit && IsPrefix(order, left, candidates, key)
      decreases left
    {
      HasLeast(left, key);
      var p :| p in left && forall y :: y in left ==> AtMost(key(p), key(y));
      TakeLeast(order, left, candidates, key, p);
      left, order := left - {p}, order + [p];
    }
  }

  lemma {:induction false} CountsOnce<T>(order: seq<T>)
    requires forall i, j :: 0 <= i < j < |order| ==> order[i] != order[j]
    ensures |set x | x in order| == |order|
  {
    if order != [] {
      var last := |order| - 1;
      CountsOnce(order[..last]);
      assert order == order[..last] + [order[last]];
      assert (set x | x in order) == (set x | x in order[..last]) + {order[last]};
    }
  }
}
