// Stable insertion sort by any comparison.
module Sorting {
  import opened Base

  function Insert<T>(x: T, s: seq<T>, before: (T, T) -> bool): seq<T> {
    if s == [] || before(x, s[0]) then [x] + s else [s[0]] + Insert(x, s[1..], before)
  }

  // Stable: an element goes behind those it is not before.
  function SortBy<T>(s: seq<T>, before: (T, T) -> bool): seq<T> {
    if s == [] then [] else Insert(s[|s|-1], SortBy(s[..|s|-1], before), before)
  }

  ghost predicate WeakOrder<T(!new)>(before: (T, T) -> bool) {
    && (forall a, b :: before(a, b) ==> !before(b, a))
    && forall a, b, c :: !before(b, a) && !before(c, b) ==> !before(c, a)
  }

  ghost predicate SortedBy<T>(s: seq<T>, before: (T, T) -> bool) {
    forall i, j :: 0 <= i < j < |s| ==> !before(s[j], s[i])
  }

  lemma {:induction false} InsertMembers<T>(x: T, s: seq<T>, before: (T, T) -> bool)
    ensures forall y :: y in Insert(x, s, before) <==> y == x || y in s
  {
    if s != [] && !before(x, s[0]) {
      InsertMembers(x, s[1..], before);
    }
  }

  lemma {:induction false} InsertKeeps<T>(x: T, s: seq<T>, before: (T, T) -> bool)
    ensures multiset(Insert(x, s, before)) == multiset(s) + multiset{x}
  {
    if s != [] && !before(x, s[0]) {
      InsertKeeps(x, s[1..], before);
      assert s == [s[0]] + s[1..];
    }
  }

  lemma {:induction false} InsertOrders<T(!new)>(x: T, s: seq<T>, before: (T, T) -> bool)
    requires WeakOrder(before) && SortedBy(s, before)
    ensures SortedBy(Insert(x, s, before), before)
  {
    if s != [] && !before(x, s[0]) {
      InsertOrders(x, s[1..], before);
      InsertKeeps(x, s[1..], before);
      var rest := Insert(x, s[1..], before);
      forall j | 0 <= j < |rest| ensures !before(rest[j], s[0]) {
        assert rest[j] in multiset(rest);
        assert rest[j] == x || rest[j] in s[1..];
      }
    }
  }

  lemma {:induction false} SortSorts<T(!new)>(s: seq<T>, before: (T, T) -> bool)
    requires WeakOrder(before)
    ensures multiset(SortBy(s, before)) == multiset(s) && SortedBy(SortBy(s, before), before)
    ensures |SortBy(s, before)| == |s|
    decreases |s|
  {
    if s != [] {
      var n := |s| - 1;
      SortSorts(s[..n], before);
      InsertKeeps(s[n], SortBy(s[..n], before), before);
      InsertOrders(s[n], SortBy(s[..n], before), before);
      assert s == s[..n] + [s[n]];
    }
    assert |multiset(SortBy(s, before))| == |SortBy(s, before)|;
  }

  lemma {:induction false} InsertLast<T>(x: T, s: seq<T>, before: (T, T) -> bool)
    requires forall i :: 0 <= i < |s| ==> !before(x, s[i])
    ensures Insert(x, s, before) == s + [x]
  {
    if s != [] {
      InsertLast(x, s[1..], before);
    }
  }

  lemma {:induction false} SortIsIdempotent<T(!new)>(s: seq<T>, before: (T, T) -> bool)
    requires SortedBy(s, before)
    ensures SortBy(s, before) == s
    decreases |s|
  {
    if s != [] {
      var n := |s| - 1;
      SortIsIdempotent(s[..n], before);
      InsertLast(s[n], s[..n], before);
    }
  }

  // What lies beyond the k best cannot come back by inserting another.
  lemma {:induction false} TakeInsert<T>(k: nat, x: T, s: seq<T>, before: (T, T) -> bool)
    ensures Take(k, Insert(x, Take(k, s), before)) == Take(k, Insert(x, s, before))
    decreases k
  {
    if 0 < k < |s| && !before(x, s[0]) {
      assert Take(k, s)[1..] == Take(k - 1, s[1..]);
      TakeInsert(k - 1, x, s[1..], before);
      assert Take(k, Insert(x, Take(k, s), before)) == [s[0]] + Take(k - 1, Insert(x, Take(k - 1, s[1..]), before));
      assert Take(k, Insert(x, s, before)) == [s[0]] + Take(k - 1, Insert(x, s[1..], before));
    }
  }
}
