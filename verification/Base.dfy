/** Small vocabulary shared by every module. */
module Base {
  datatype Option<+T> = None | Some(value: T)

  function Max(a: int, b: int): int { if a < b then b else a }

  function Min(a: int, b: int): int { if a < b then a else b }
}

/** How many elements of a sequence satisfy a predicate. */
module Counting {
  function Count<T>(items: seq<T>, p: T -> bool): nat {
    if items == [] then 0 else Count(items[..|items| - 1], p) + if p(items[|items| - 1]) then 1 else 0
  }

  lemma {:induction false} CountOfUpdate<T>(items: seq<T>, p: T -> bool, t: nat, c: T)
    requires t < |items|
    ensures Count(items[t := c], p) == Count(items, p) - (if p(items[t]) then 1 else 0) + (if p(c) then 1 else 0)
  {
    var n := |items| - 1;
    if t == n {
      assert items[t := c][..n] == items[..n];
    } else {
      assert items[t := c][..n] == items[..n][t := c];
      CountOfUpdate(items[..n], p, t, c);
    }
  }

  lemma CountOfAppend<T>(items: seq<T>, p: T -> bool, c: T)
    ensures Count(items + [c], p) == Count(items, p) + if p(c) then 1 else 0
  {
    assert (items + [c])[..|items|] == items;
  }

  lemma {:induction false} CountIsMonotone<T>(items: seq<T>, p: T -> bool, q: T -> bool)
    requires forall i :: 0 <= i < |items| && p(items[i]) ==> q(items[i])
    ensures Count(items, p) <= Count(items, q)
  {
    if items != [] { CountIsMonotone(items[..|items| - 1], p, q); }
  }

  lemma {:induction false} CountOfNone<T>(items: seq<T>, p: T -> bool)
    requires forall i :: 0 <= i < |items| ==> !p(items[i])
    ensures Count(items, p) == 0
  {
    if items != [] { CountOfNone(items[..|items| - 1], p); }
  }
}
