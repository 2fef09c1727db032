// What both consistency checkers search for: an order of n operations that
// respects a precedence relation and replays through a sequential step function.
// Operations are named by their index, because ids may repeat.
module SerialOrders {
  import opened Base

  datatype Problem<!S> = Problem(n: nat, prec: (nat, nat) -> bool, step: (S, nat) -> Option<S>)

  // ----- the declarative specification -----

  ghost predicate IsPermutation(path: seq<nat>, n: nat) {
    |path| == n && Distinct(path) && forall k :: 0 <= k < |path| ==> path[k] < n
  }

  // No operation comes before one of its predecessors.
  ghost predicate Respects<S>(p: Problem<S>, path: seq<nat>) {
    forall a, b :: 0 <= a < b < |path| ==> !p.prec(path[b], path[a])
  }

  function Replay<S>(p: Problem<S>, s: S, path: seq<nat>): Option<S> {
    if path == [] then Some(s) else
      match p.step(s, path[0])
      case None => None
      case Some(next) => Replay(p, next, path[1..])
  }

  ghost predicate IsWitness<S>(p: Problem<S>, s: S, path: seq<nat>) {
    IsPermutation(path, p.n) && Respects(p, path) && Replay(p, s, path).Some?
  }

  ghost predicate Irreflexive<S>(p: Problem<S>) {
    forall i: nat :: !p.prec(i, i)
  }

  // ----- the same thing as a search sees it -----

  // Which indices below n occur on the path.
  function Marks(n: nat, path: seq<nat>): (used: seq<bool>) {
    seq(n, i requires 0 <= i < n => i in path)
  }

  predicate Enabled<S>(p: Problem<S>, used: seq<bool>, i: nat)
    requires |used| == p.n
  {
    i < p.n && !used[i] && forall j: nat :: j < p.n && p.prec(j, i) ==> used[j]
  }

  // The tail runs the operations not used yet, each once its predecessors are.
  ghost predicate Completes<S>(p: Problem<S>, used: seq<bool>, s: S, tail: seq<nat>)
    requires |used| == p.n
    decreases tail
  {
    if tail == [] then
      forall i :: 0 <= i < p.n ==> used[i]
    else
      Enabled(p, used, tail[0]) && p.step(s, tail[0]).Some?
      && Completes(p, used[tail[0] := true], p.step(s, tail[0]).value, tail[1..])
  }

  ghost predicate NoWay<S(!new)>(p: Problem<S>, used: seq<bool>, s: S)
    requires |used| == p.n
  {
    forall tail :: !Completes(p, used, s, tail)
  }

  // Lexicographic order on paths: the order in which the searches try them.
  ghost predicate LexLeq(a: seq<nat>, b: seq<nat>) {
    if a == [] then true
    else if b == [] then false
    else a[0] < b[0] || (a[0] == b[0] && LexLeq(a[1..], b[1..]))
  }

  // ----- the two views agree -----

  // Every predecessor of an entry at or after `from` stands before that entry.
  ghost predicate Ordered<S>(p: Problem<S>, path: seq<nat>, from: nat) {
    forall b: nat, j: nat :: from <= b < |path| && j < p.n && p.prec(j, path[b]) ==> j in path[..b]
  }

  lemma {:induction false} CompletesIff<S>(p: Problem<S>, done: seq<nat>, s: S, tail: seq<nat>)
    requires Distinct(done) && forall k :: 0 <= k < |done| ==> done[k] < p.n
    ensures Completes(p, Marks(p.n, done), s, tail)
       <==> IsPermutation(done + tail, p.n) && Ordered(p, done + tail, |done|) && Replay(p, s, tail).Some?
    decreases |tail|
  {
    var used := Marks(p.n, done);
    if tail == [] {
      assert done + tail == done;
      if forall i :: 0 <= i < p.n ==> used[i] {
        forall i | 0 <= i < p.n ensures i in done { assert used[i]; }
        CoversAll(done, p.n);
      } else if |done| == p.n {
        DistinctBounded(done, p.n);
      }
    } else {
      var i := tail[0];
      var path := done + tail;
      var done' := done + [i];
      assert path == done' + tail[1..];
      assert path[|done|] == i && path[..|done|] == done;
      if Enabled(p, used, i) && p.step(s, i).Some? {
        assert used[i := true] == Marks(p.n, done');
        CompletesIff(p, done', p.step(s, i).value, tail[1..]);
        assert Ordered(p, path, |done|) <==> Ordered(p, path, |done'|) by {
          if Ordered(p, path, |done'|) {
            forall b: nat, j: nat | |done| <= b < |path| && j < p.n && p.prec(j, path[b])
              ensures j in path[..b]
            {
              if b == |done| { assert used[j]; }
            }
          }
        }
      } else if !Enabled(p, used, i) && IsPermutation(path, p.n) && Ordered(p, path, |done|) {
        assert i !in done by {
          forall k | 0 <= k < |done| ensures done[k] != i {
            assert path[k] != path[|done|];
          }
        }
        forall j: nat | j < p.n && p.prec(j, i) ensures used[j] {
          assert j in path[..|done|];
        }
        assert false;
      }
    }
  }

  lemma CoversAll(path: seq<nat>, n: nat)
    requires Distinct(path) && forall k :: 0 <= k < |path| ==> path[k] < n
    requires forall i :: 0 <= i < n ==> i in path
    ensures |path| == n
  {
    var elems := set k | 0 <= k < |path| :: path[k];
    DistinctCardinality(path);
    forall i: nat | i < n ensures i in elems {
      assert i in path;
    }
    assert elems == Below(n);
  }

  lemma OrderedIffRespects<S>(p: Problem<S>, path: seq<nat>)
    requires IsPermutation(path, p.n) && Irreflexive(p)
    ensures Ordered(p, path, 0) <==> Respects(p, path)
  {
    if Ordered(p, path, 0) {
      forall a, b | 0 <= a < b < |path| ensures !p.prec(path[b], path[a]) {
        assert path[b] !in path[..a];
      }
    }
    if Respects(p, path) {
      forall b: nat, j: nat | b < |path| && j < p.n && p.prec(j, path[b]) ensures j in path[..b] {
        DistinctBounded(path, p.n);
        assert j in path;
        var a :| 0 <= a < |path| && path[a] == j;
        assert a < b;
        assert path[..b][a] == j;
      }
    }
  }

  lemma CompletesIffWitness<S>(p: Problem<S>, s: S, path: seq<nat>)
    requires Irreflexive(p)
    ensures Completes(p, Marks(p.n, []), s, path) <==> IsWitness(p, s, path)
  {
    CompletesIff(p, [], s, path);
    assert [] + path == path;
    if IsPermutation(path, p.n) {
      OrderedIffRespects(p, path);
    }
  }

  // ----- what the two searches have in common -----

  // What the recursive calls share and update.
  datatype Memo<S> = Memo(explored: nat, inconclusive: bool, seen: seq<(seq<bool>, S)>)

  datatype Outcome<S> = Outcome(memo: Memo<S>, found: Option<seq<nat>>)

  function Candidate<S>(p: Problem<S>, used: seq<bool>, s: S, i: nat): Option<S>
    requires |used| == p.n
  {
    if Enabled(p, used, i) then p.step(s, i) else None
  }

  function Fresh<S>(): Memo<S> {
    Memo(0, false, [])
  }

  // The memo only grows, and only by states at least as deep as this call.
  ghost predicate Grows<S>(memo: Memo<S>, memo': Memo<S>, depth: nat) {
    && memo.seen <= memo'.seen
    && (memo.inconclusive ==> memo'.inconclusive)
    && forall k :: |memo.seen| <= k < |memo'.seen| ==> Count(memo'.seen[k].0) >= depth
  }

  // Every remembered state at depth d or deeper is a dead end; shallower ones
  // are on the current path.
  ghost predicate DeadBelow<S(!new)>(p: Problem<S>, memo: Memo<S>, d: nat) {
    forall e :: e in memo.seen && |e.0| == p.n && Count(e.0) >= d ==> NoWay(p, e.0, e.1)
  }

  // `full` is the path extended by the lexicographically least completion.
  ghost predicate IsLeastCompletion<S>(p: Problem<S>, used: seq<bool>, path: seq<nat>, s: S, full: seq<nat>)
    requires |used| == p.n
  {
    && path <= full
    && Completes(p, used, s, full[|path|..])
    && forall tail :: Completes(p, used, s, tail) ==> LexLeq(full[|path|..], tail)
  }

  ghost predicate Exact<S(!new)>(p: Problem<S>, used: seq<bool>, path: seq<nat>, s: S, r: Outcome<S>)
    requires |used| == p.n
  {
    !r.memo.inconclusive ==>
      match r.found
      case None => NoWay(p, used, s) && DeadBelow(p, r.memo, |path|)
      case Some(full) => IsLeastCompletion(p, used, path, s, full)
  }

  // Trying index i cannot succeed from here.
  ghost predicate Hopeless<S(!new)>(p: Problem<S>, used: seq<bool>, s: S, i: nat)
    requires |used| == p.n
  {
    match Candidate(p, used, s, i)
    case None => true
    case Some(next) => NoWay(p, used[i := true], next)
  }

  lemma NothingLeft<S(!new)>(p: Problem<S>, used: seq<bool>, s: S)
    requires |used| == p.n && Count(used) < p.n
    requires forall j: nat :: j < p.n ==> Hopeless(p, used, s, j)
    ensures NoWay(p, used, s)
  {
    CountBounds(used);
    forall tail ensures !Completes(p, used, s, tail) {
      if tail != [] && Enabled(p, used, tail[0]) {
        assert Hopeless(p, used, s, tail[0]);
      }
    }
  }

  lemma LeastVia<S(!new)>(p: Problem<S>, used: seq<bool>, path: seq<nat>, s: S, i: nat, full: seq<nat>)
    requires |used| == p.n && Count(used) < p.n
    requires Candidate(p, used, s, i).Some?
    requires IsLeastCompletion(p, used[i := true], path + [i], Candidate(p, used, s, i).value, full)
    requires forall j: nat :: j < i ==> Hopeless(p, used, s, j)
    ensures IsLeastCompletion(p, used, path, s, full)
  {
    CountBounds(used);
    var mine := full[|path|..];
    assert mine[0] == full[|path|] == (path + [i])[|path|] == i;
    assert mine[1..] == full[|path + [i]|..];
    forall tail: seq<nat> | tail != [] && tail[0] < i ensures !Completes(p, used, s, tail) {
      assert Hopeless(p, used, s, tail[0]);
    }
    forall tail | Completes(p, used, s, tail) ensures LexLeq(mine, tail) {
      assert tail[0] >= i;
    }
  }

  // A witness that no other witness precedes in the search order.
  ghost predicate LeastWitness<S>(p: Problem<S>, s: S, path: seq<nat>) {
    IsWitness(p, s, path) && forall other :: IsWitness(p, s, other) ==> LexLeq(path, other)
  }

  // ----- how large a search can grow -----

  // The states of a search tree of width w and depth k, each branch charged once.
  function TreeSize(w: nat, k: nat): (size: nat)
    ensures size >= 1
    decreases k, w + 1
  {
    if k == 0 then 1 else 1 + ForestSize(w, k, w)
  }

  // The part of it below j of the branches.
  function ForestSize(w: nat, k: nat, j: nat): nat
    requires k > 0 && j <= w
    decreases k, j
  {
    if j == 0 then 0 else 1 + TreeSize(w, k - 1) + ForestSize(w, k, j - 1)
  }

  // The search stayed within a cost and was not cut short.
  ghost predicate Within<S>(memo: Memo<S>, cost: nat, r: Outcome<S>) {
    !r.memo.inconclusive && r.memo.explored <= memo.explored + cost
  }
}
