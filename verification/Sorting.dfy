/** Sorting distinct elements by a strict order that is total on them. */
module Sorting {

  ghost predicate StrictTotalOn<T>(lt: (T, T) -> bool, s: set<T>) {
    && (forall x :: x in s ==> !lt(x, x))
    && (forall x, y :: x in s && y in s && x != y ==> lt(x, y) || lt(y, x))
    && (forall x, y, z :: x in s && y in s && z in s && lt(x, y) && lt(y, z) ==> lt(x, z))
  }

  ghost predicate Ascending<T>(lt: (T, T) -> bool, xs: seq<T>) {
    forall i, j :: 0 <= i < j < |xs| ==> lt(xs[i], xs[j])
  }

  ghost predicate Distinct<T>(xs: seq<T>) {
    forall i, j :: 0 <= i < j < |xs| ==> xs[i] != xs[j]
  }

  ghost function Elements<T>(xs: seq<T>): set<T> {
    set x | x in xs
  }

  function Insert<T>(lt: (T, T) -> bool, x: T, xs: seq<T>): seq<T> {
    if xs == [] || lt(x, xs[0]) then [x] + xs else [xs[0]] + Insert(lt, x, xs[1..])
  }

  function Sort<T>(lt: (T, T) -> bool, xs: seq<T>): seq<T> {
    if xs == [] then [] else Insert(lt, xs[0], Sort(lt, xs[1..]))
  }

  lemma {:induction false} InsertElements<T>(lt: (T, T) -> bool, x: T, xs: seq<T>)
    ensures Elements(Insert(lt, x, xs)) == Elements(xs) + {x} && |Insert(lt, x, xs)| == |xs| + 1
  {
    if xs != [] && !lt(x, xs[0]) {
      InsertElements(lt, x, xs[1..]);
      assert Elements(xs) == {xs[0]} + Elements(xs[1..]);
      assert Elements(Insert(lt, x, xs)) == {xs[0]} + Elements(Insert(lt, x, xs[1..]));
    }
  }

  lemma {:induction false} InsertAscends<T>(lt: (T, T) -> bool, x: T, xs: seq<T>)
    requires StrictTotalOn(lt, Elements(xs) + {x}) && Ascending(lt, xs) && x !in xs
    ensures Ascending(lt, Insert(lt, x, xs))
  {
    if xs == [] {
    } else if lt(x, xs[0]) {
      forall i | 0 <= i < |xs| ensures lt(x, xs[i]) {
        assert xs[0] in Elements(xs) && xs[i] in Elements(xs);
      }
    } else {
      assert xs[0] in Elements(xs);
      assert Elements(xs[1..]) <= Elements(xs);
      InsertAscends(lt, x, xs[1..]);
      InsertElements(lt, x, xs[1..]);
      var rest := Insert(lt, x, xs[1..]);
      forall i | 0 <= i < |rest| ensures lt(xs[0], rest[i]) {
        assert rest[i] in Elements(rest);
      }
    }
  }

  lemma {:induction false} SortAscends<T>(lt: (T, T) -> bool, xs: seq<T>)
    requires StrictTotalOn(lt, Elements(xs)) && Distinct(xs)
    ensures Ascending(lt, Sort(lt, xs)) && Elements(Sort(lt, xs)) == Elements(xs) && |Sort(lt, xs)| == |xs|
  {
    if xs != [] {
      assert Elements(xs) == Elements(xs[1..]) + {xs[0]};
      SortAscends(lt, xs[1..]);
      assert xs[0] !in Elements(xs[1..]);
      InsertAscends(lt, xs[0], Sort(lt, xs[1..]));
      InsertElements(lt, xs[0], Sort(lt, xs[1..]));
    }
  }

  /** The elements determine the ascending sequence. */
  lemma {:induction false} AscendingIsUnique<T>(lt: (T, T) -> bool, xs: seq<T>, ys: seq<T>)
    requires Elements(xs) == Elements(ys) && StrictTotalOn(lt, Elements(xs))
    requires Ascending(lt, xs) && Ascending(lt, ys)
    ensures xs == ys
  {
    NoElements(xs);
    NoElements(ys);
    if xs != [] {
      assert xs[0] in Elements(xs) && ys[0] in Elements(ys);
      FirstIsLeast(lt, xs, ys[0]);
      FirstIsLeast(lt, ys, xs[0]);
      assert xs[0] == ys[0];
      TailElements(lt, xs);
      TailElements(lt, ys);
      AscendingIsUnique(lt, xs[1..], ys[1..]);
    }
  }

  lemma NoElements<T>(xs: seq<T>)
    ensures Elements(xs) == {} <==> xs == []
  {
    assert xs != [] ==> xs[0] in Elements(xs);
  }

  lemma FirstIsLeast<T>(lt: (T, T) -> bool, xs: seq<T>, x: T)
    requires Ascending(lt, xs) && x in xs
    ensures x == xs[0] || lt(xs[0], x)
  {
  }

  lemma TailElements<T>(lt: (T, T) -> bool, xs: seq<T>)
    requires xs != [] && Ascending(lt, xs) && StrictTotalOn(lt, Elements(xs))
    ensures Elements(xs[1..]) == Elements(xs) - {xs[0]}
  {
    assert xs[0] in Elements(xs);
    assert forall i :: 1 <= i < |xs| ==> xs[i] != xs[0];
  }
}
