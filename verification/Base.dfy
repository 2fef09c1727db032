// Small vocabulary shared by every module: optional values, the integer bounds
// of the original's machine types, and facts about sequences and counting.
module Base {

  datatype Option<+T> = None | Some(value: T)

  function ToSeq<T>(o: Option<T>): seq<T> {
    match o
    case None => []
    case Some(x) => [x]
  }

  const U64_MAX: nat := 0xFFFF_FFFF_FFFF_FFFF

  function Max(a: int, b: int): int {
    if a < b then b else a
  }

  function Min(a: int, b: int): int {
    if a < b then a else b
  }

  // The original's `i128::clamp(0, u64::MAX)`.
  function ClampU64(x: int): nat {
    if x < 0 then 0 else if x > U64_MAX then U64_MAX else x
  }

  // The original's `u64::saturating_add`.
  function SatAdd(a: nat, b: nat): nat {
    ClampU64(a + b)
  }

  ghost predicate Distinct<T>(s: seq<T>) {
    forall a, b :: 0 <= a < b < |s| ==> s[a] != s[b]
  }

  ghost predicate StrictlyIncreasing(s: seq<nat>) {
    forall a, b :: 0 <= a < b < |s| ==> s[a] < s[b]
  }

  // `out` is `xs` read at `idx`, which lists, in order, where `keep` holds.
  ghost predicate IsSelection<T>(xs: seq<T>, keep: T -> bool, idx: seq<nat>, out: seq<T>) {
    && StrictlyIncreasing(idx) && (forall i: nat :: i in idx <==> i < |xs| && keep(xs[i]))
    && |out| == |idx| && forall k :: 0 <= k < |idx| ==> idx[k] < |xs| && out[k] == xs[idx[k]]
  }

  function Shifted(idx: seq<nat>): seq<nat> {
    seq(|idx|, k requires 0 <= k < |idx| => idx[k] + 1)
  }

  // One more in front.
  lemma SelectionFirst<T>(xs: seq<T>, keep: T -> bool, idx: seq<nat>, out: seq<T>)
    requires xs != [] && IsSelection(xs[1..], keep, idx, out)
    ensures if keep(xs[0]) then IsSelection(xs, keep, [0] + Shifted(idx), [xs[0]] + out)
            else IsSelection(xs, keep, Shifted(idx), out)
  {
    var later := Shifted(idx);
    forall i: nat ensures i in later <==> 0 < i < |xs| && keep(xs[i]) {
      if i in later {
        var k :| 0 <= k < |later| && later[k] == i;
        assert idx[k] in idx;
      }
      if 0 < i < |xs| && keep(xs[i]) {
        assert xs[1..][i-1] == xs[i];
        var k :| 0 <= k < |idx| && idx[k] == i - 1;
        assert later[k] == i;
      }
    }
  }

  function RemoveAt<T>(s: seq<T>, k: nat): seq<T>
    requires k < |s|
  {
    s[..k] + s[k+1..]
  }

  function Take<T>(k: nat, s: seq<T>): seq<T> {
    if k < |s| then s[..k] else s
  }

  function Reversed<T>(s: seq<T>): seq<T> {
    if s == [] then [] else Reversed(s[1..]) + [s[0]]
  }

  lemma MoveAcross<T>(a: seq<T>, b: seq<T>, c: seq<T>)
    ensures a + (b + c) == (a + b) + c
  {
  }

  // The sequence 0, 1, ..., n-1.
  function Range(n: nat): seq<nat> {
    seq(n, i => i)
  }

  // Number of `true` entries.
  function Count(flags: seq<bool>): nat {
    if flags == [] then 0 else (if flags[0] then 1 else 0) + Count(flags[1..])
  }

  lemma {:induction false} CountBounds(flags: seq<bool>)
    ensures Count(flags) <= |flags|
    ensures Count(flags) == |flags| <==> forall i :: 0 <= i < |flags| ==> flags[i]
    ensures Count(flags) == 0 <==> forall i :: 0 <= i < |flags| ==> !flags[i]
  {
    if flags != [] {
      CountBounds(flags[1..]);
      assert forall i :: 0 < i < |flags| ==> flags[i] == flags[1..][i-1];
      assert forall i :: 0 <= i < |flags[1..]| ==> flags[1..][i] == flags[i+1];
    }
  }

  lemma {:induction false} CountSet(flags: seq<bool>, k: nat)
    requires k < |flags| && !flags[k]
    ensures Count(flags[k := true]) == Count(flags) + 1
  {
    if k == 0 {
      assert flags[0 := true][1..] == flags[1..];
    } else {
      CountSet(flags[1..], k - 1);
      assert flags[k := true][1..] == flags[1..][k-1 := true];
    }
  }

  // A duplicate-free list of naturals below n has at most n entries.
  lemma {:induction false} DistinctBounded(s: seq<nat>, n: nat)
    requires Distinct(s) && forall k :: 0 <= k < |s| ==> s[k] < n
    ensures |s| <= n
    ensures |s| == n ==> forall i :: 0 <= i < n ==> i in s
  {
    var elems := set k | 0 <= k < |s| :: s[k];
    DistinctCardinality(s);
    assert elems <= Below(n);
    CardinalityLe(elems, Below(n));
    if |s| == n {
      CardinalityEq(elems, Below(n));
      forall i | 0 <= i < n ensures i in s {
        assert i in Below(n);
      }
    }
  }

  ghost function Below(n: nat): (r: set<nat>)
    ensures |r| == n
    ensures forall i: nat :: i in r <==> i < n
  {
    if n == 0 then {} else Below(n - 1) + {n - 1}
  }

  lemma {:induction false} DistinctCardinality<T>(s: seq<T>)
    requires Distinct(s)
    ensures |set k | 0 <= k < |s| :: s[k]| == |s|
  {
    var elems := set k | 0 <= k < |s| :: s[k];
    if s == [] {
      assert elems == {};
    } else {
      var rest := s[..|s|-1];
      DistinctCardinality(rest);
      var elems' := set k | 0 <= k < |rest| :: rest[k];
      assert elems == elems' + {s[|s|-1]};
    }
  }

  // A list without repetitions, of entries of another, is no longer than it.
  lemma FitsInside<T>(a: seq<T>, b: seq<T>)
    requires Distinct(a) && forall x :: x in a ==> x in b
    ensures |a| <= |b|
  {
    var as', bs := set k | 0 <= k < |a| :: a[k], set k | 0 <= k < |b| :: b[k];
    DistinctCardinality(a);
    forall x | x in as' ensures x in bs {
      assert x in b;
    }
    CardinalityLe(as', bs);
    ElementsAtMost(b);
  }

  lemma {:induction false} ElementsAtMost<T>(s: seq<T>)
    ensures |set k | 0 <= k < |s| :: s[k]| <= |s|
  {
    var elems := set k | 0 <= k < |s| :: s[k];
    if s == [] {
      assert elems == {};
    } else {
      var rest := s[..|s|-1];
      ElementsAtMost(rest);
      var elems' := set k | 0 <= k < |rest| :: rest[k];
      assert elems == elems' + {s[|s|-1]};
    }
  }

  lemma {:induction false} CardinalityLe<T>(a: set<T>, b: set<T>)
    requires a <= b
    ensures |a| <= |b|
  {
    assert b == a + (b - a);
  }

  lemma CardinalityEq<T>(a: set<T>, b: set<T>)
    requires a <= b && |a| == |b|
    ensures a == b
  {
    assert b == a + (b - a);
  }
}
