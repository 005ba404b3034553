/** Sorting by any total order, as std::sort promises it: ordered, and the same elements. */
module Sorting {

  /** Total and transitive: `before` says which of two elements may stand first. */
  ghost predicate IsOrder<T(!new)>(before: (T, T) -> bool) {
    && (forall a, b :: before(a, b) || before(b, a))
    && (forall a, b, c :: before(a, b) && before(b, c) ==> before(a, c))
  }

  predicate Sorted<T>(before: (T, T) -> bool, s: seq<T>) {
    forall i, j :: 0 <= i < j < |s| ==> before(s[i], s[j])
  }

  function Insert<T>(before: (T, T) -> bool, x: T, s: seq<T>): seq<T> {
    if s == [] || before(x, s[0]) then [x] + s else [s[0]] + Insert(before, x, s[1..])
  }

  lemma OnTop<T>(before: (T, T) -> bool, x: T, s: seq<T>)
    requires Sorted(before, s) && forall y :: y in s ==> before(x, y)
    ensures Sorted(before, [x] + s)
  {
  }

  lemma {:induction false} InsertAdds<T>(before: (T, T) -> bool, x: T, s: seq<T>)
    ensures multiset(Insert(before, x, s)) == multiset(s) + multiset{x}
  {
    if s != [] && !before(x, s[0]) {
      InsertAdds(before, x, s[1..]);
      assert s == [s[0]] + s[1..];
    }
  }

  lemma {:induction false} InsertSorted<T(!new)>(before: (T, T) -> bool, x: T, s: seq<T>)
    requires IsOrder(before) && Sorted(before, s)
    ensures Sorted(before, Insert(before, x, s))
  {
    if s == [] || before(x, s[0]) {
      forall y | y in s
        ensures before(x, y)
      {
        var i :| 0 <= i < |s| && s[i] == y;
        if i > 0 { assert before(s[0], y); }
      }
      OnTop(before, x, s);
    } else {
      var t := Insert(before, x, s[1..]);
      InsertSorted(before, x, s[1..]);
      InsertAdds(before, x, s[1..]);
      forall y | y in t
        ensures before(s[0], y)
      {
        assert y in multiset(t);
        assert y == x || y in s[1..];
      }
      OnTop(before, s[0], t);
    }
  }

  method Sort<T(!new)>(before: (T, T) -> bool, s: seq<T>) returns (r: seq<T>)
    requires IsOrder(before)
    ensures Sorted(before, r) && multiset(r) == multiset(s)
  {
    r := [];
    var i := 0;
    while i < |s|
      invariant 0 <= i <= |s| && Sorted(before, r) && multiset(r) == multiset(s[..i])
    {
      assert s[..i + 1] == s[..i] + [s[i]];
      InsertSorted(before, s[i], r);
      InsertAdds(before, s[i], r);
      r := Insert(before, s[i], r);
      i := i + 1;
    }
    assert s[..|s|] == s;
  }
}
