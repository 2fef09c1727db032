// Where a search that tries orders lexicographically, and never a state twice, has
// to go: to every state that some run not after the first witness reaches.
module SearchScope {
  import opened Base
  import opened SerialOrders

  // ----- said of runs alone -----

  // A beginning of an order: no operation twice, each after its predecessors, and
  // every step explained.
  ghost predicate IsPartialRun<S>(p: Problem<S>, s: S, done: seq<nat>) {
    && Distinct(done) && (forall k :: 0 <= k < |done| ==> done[k] < p.n)
    && Ordered(p, done, 0) && Replay(p, s, done).Some?
  }

  // It leaves something to do, and comes before no witness has been passed.
  ghost predicate IsAhead<S(!new)>(p: Problem<S>, s: S, done: seq<nat>) {
    && IsPartialRun(p, s, done) && |done| < p.n
    && forall w :: IsWitness(p, s, w) ==> LexLeq(done, w)
  }

  // What the search remembers of a run: the operations used and the state.
  function NodeOf<S>(p: Problem<S>, s: S, done: seq<nat>): (seq<bool>, S)
    requires Replay(p, s, done).Some?
  {
    (Marks(p.n, done), Replay(p, s, done).value)
  }

  ghost predicate IsNode<S(!new)>(p: Problem<S>, s: S, e: (seq<bool>, S)) {
    exists done :: IsAhead(p, s, done) && NodeOf(p, s, done) == e
  }

  // ----- the same as the search sees it -----

  ghost predicate Leads<S>(p: Problem<S>, used: seq<bool>, s: S, tail: seq<nat>)
    requires |used| == p.n
    decreases tail
  {
    tail != [] ==>
      && Candidate(p, used, s, tail[0]).Some?
      && Leads(p, used[tail[0] := true], Candidate(p, used, s, tail[0]).value, tail[1..])
  }

  function End<S>(p: Problem<S>, used: seq<bool>, s: S, tail: seq<nat>): (seq<bool>, S)
    requires |used| == p.n && Leads(p, used, s, tail)
    decreases tail
  {
    if tail == [] then (used, s)
    else End(p, used[tail[0] := true], Candidate(p, used, s, tail[0]).value, tail[1..])
  }

  ghost predicate NotLater<S(!new)>(p: Problem<S>, used: seq<bool>, s: S, tail: seq<nat>)
    requires |used| == p.n
  {
    forall full :: Completes(p, used, s, full) ==> LexLeq(tail, full)
  }

  // The tail leaves something to do.
  ghost predicate Stops<S>(p: Problem<S>, used: seq<bool>, s: S, tail: seq<nat>)
    requires |used| == p.n
  {
    Leads(p, used, s, tail) && Count(used) + |tail| < p.n
  }

  ghost predicate InScope<S(!new)>(p: Problem<S>, used: seq<bool>, s: S, tail: seq<nat>)
    requires |used| == p.n
  {
    Stops(p, used, s, tail) && NotLater(p, used, s, tail)
  }

  ghost predicate Reaches<S(!new)>(p: Problem<S>, used: seq<bool>, s: S, e: (seq<bool>, S))
    requires |used| == p.n
  {
    exists tail :: InScope(p, used, s, tail) && End(p, used, s, tail) == e
  }

  lemma {:induction false} LeadsIff<S>(p: Problem<S>, done: seq<nat>, s: S, tail: seq<nat>)
    requires Distinct(done) && forall k :: 0 <= k < |done| ==> done[k] < p.n
    ensures Leads(p, Marks(p.n, done), s, tail)
       <==> Distinct(done + tail) && (forall k :: 0 <= k < |tail| ==> tail[k] < p.n)
            && Ordered(p, done + tail, |done|) && Replay(p, s, tail).Some?
    decreases |tail|
  {
    var used := Marks(p.n, done);
    if tail == [] {
      assert done + tail == done;
    } else {
      var i := tail[0];
      var done' := done + [i];
      var path := done + tail;
      assert path == done' + tail[1..] && path[|done|] == i && path[..|done|] == done;
      if Candidate(p, used, s, i).Some? {
        assert used[i := true] == Marks(p.n, done');
        LeadsIff(p, done', p.step(s, i).value, tail[1..]);
        OrderedFrom(p, path, |done|);
        assert forall k :: 0 <= k < |tail| - 1 ==> tail[1..][k] == tail[k+1];
        assert forall k :: 0 < k < |tail| ==> tail[k] == tail[1..][k-1];
      } else if Distinct(path) && i < p.n && Ordered(p, path, |done|) && p.step(s, i).Some? {
        assert i !in done by {
          forall k | 0 <= k < |done| ensures done[k] != i {
            assert path[k] != path[|done|];
          }
        }
        forall j: nat | j < p.n && p.prec(j, i) ensures used[j] {
          assert j in path[..|done|];
        }
        assert false;
      }
    }
  }

  lemma OrderedFrom<S>(p: Problem<S>, path: seq<nat>, d: nat)
    requires d < |path| && forall j: nat :: j < p.n && p.prec(j, path[d]) ==> j in path[..d]
    ensures Ordered(p, path, d) <==> Ordered(p, path, d + 1)
  {
  }

  lemma {:induction false} EndIs<S>(p: Problem<S>, done: seq<nat>, s: S, tail: seq<nat>)
    requires Distinct(done) && forall k :: 0 <= k < |done| ==> done[k] < p.n
    requires Leads(p, Marks(p.n, done), s, tail)
    ensures Replay(p, s, tail).Some?
    ensures End(p, Marks(p.n, done), s, tail) == (Marks(p.n, done + tail), Replay(p, s, tail).value)
    decreases |tail|
  {
    if tail == [] {
      assert done + tail == done;
    } else {
      var done' := done + [tail[0]];
      assert Marks(p.n, done)[tail[0] := true] == Marks(p.n, done');
      assert done + tail == done' + tail[1..];
      EndIs(p, done', p.step(s, tail[0]).value, tail[1..]);
    }
  }

  // From the start, the two views agree.
  lemma ScopeIff<S(!new)>(p: Problem<S>, s: S, done: seq<nat>)
    requires Irreflexive(p)
    ensures InScope(p, Marks(p.n, []), s, done) <==> IsAhead(p, s, done)
    ensures IsAhead(p, s, done) ==> End(p, Marks(p.n, []), s, done) == NodeOf(p, s, done)
  {
    var none := Marks(p.n, []);
    CountBounds(none);
    assert [] + done == done;
    LeadsIff(p, [], s, done);
    forall full ensures Completes(p, none, s, full) <==> IsWitness(p, s, full) {
      CompletesIffWitness(p, s, full);
    }
    if Leads(p, none, s, done) { EndIs(p, [], s, done); }
  }

  // ----- one step deeper -----

  // A tail of the branch at i is a tail from here, if nothing before i succeeds.
  lemma ScopeVia<S(!new)>(p: Problem<S>, used: seq<bool>, s: S, i: nat, tail: seq<nat>)
    requires |used| == p.n && Candidate(p, used, s, i).Some?
    requires InScope(p, used[i := true], Candidate(p, used, s, i).value, tail)
    requires forall j: nat :: j < i ==> Hopeless(p, used, s, j)
    ensures InScope(p, used, s, [i] + tail)
    ensures End(p, used, s, [i] + tail) == End(p, used[i := true], Candidate(p, used, s, i).value, tail)
  {
    CountSet(used, i);
    CountBounds(used);
    assert ([i] + tail)[1..] == tail;
    forall full: seq<nat> | full != [] && full[0] < i ensures !Completes(p, used, s, full) {
      assert Hopeless(p, used, s, full[0]);
    }
    forall full | Completes(p, used, s, full) ensures LexLeq([i] + tail, full) {
      assert full != [];
      var j := full[0];
      assert Completes(p, used[j := true], p.step(s, j).value, full[1..]);
      if j == i {
        assert LexLeq(tail, full[1..]);
      }
    }
  }

  // And the other way, whatever comes before.
  lemma ScopeWithin<S(!new)>(p: Problem<S>, used: seq<bool>, s: S, tail: seq<nat>)
    requires |used| == p.n && tail != [] && InScope(p, used, s, tail)
    ensures var i := tail[0];
            && Candidate(p, used, s, i).Some?
            && InScope(p, used[i := true], Candidate(p, used, s, i).value, tail[1..])
            && End(p, used, s, tail) == End(p, used[i := true], Candidate(p, used, s, i).value, tail[1..])
  {
    var i := tail[0];
    var next := Candidate(p, used, s, i).value;
    CountSet(used, i);
    forall full | Completes(p, used[i := true], next, full) ensures LexLeq(tail[1..], full) {
      assert ([i] + full)[1..] == full;
      assert Completes(p, used, s, [i] + full);
    }
  }

  // ----- what has been covered -----

  // Everything reached from e has been seen.
  ghost predicate Covered<S(!new)>(p: Problem<S>, seen: seq<(seq<bool>, S)>, e: (seq<bool>, S))
    requires |e.0| == p.n
  {
    forall tail :: Stops(p, e.0, e.1, tail) ==> End(p, e.0, e.1, tail) in seen
  }

  // So has everything in scope from here.
  ghost predicate CoversScope<S(!new)>(p: Problem<S>, used: seq<bool>, s: S, seen: seq<(seq<bool>, S)>)
    requires |used| == p.n
  {
    forall tail :: InScope(p, used, s, tail) ==> End(p, used, s, tail) in seen
  }

  // States at depth d or deeper, but for one, are done with.
  ghost predicate CoveredBelow<S(!new)>(p: Problem<S>, seen: seq<(seq<bool>, S)>, d: nat, but: Option<(seq<bool>, S)>) {
    forall e :: e in seen && |e.0| == p.n && Count(e.0) >= d && Some(e) != but ==> Covered(p, seen, e)
  }

  // The branch at i is done with.
  ghost predicate BranchCovered<S(!new)>(p: Problem<S>, used: seq<bool>, s: S, seen: seq<(seq<bool>, S)>, i: nat)
    requires |used| == p.n
  {
    Candidate(p, used, s, i).Some? && Count(used) + 1 < p.n ==>
      Covered(p, seen, (used[i := true], Candidate(p, used, s, i).value))
  }

  lemma CoveredGrows<S(!new)>(p: Problem<S>, seen: seq<(seq<bool>, S)>, more: seq<(seq<bool>, S)>, e: (seq<bool>, S))
    requires |e.0| == p.n && Covered(p, seen, e) && forall x :: x in seen ==> x in more
    ensures Covered(p, more, e)
  {
  }

  // With no way on from here, the scope is everything.
  lemma ScopeIsAll<S(!new)>(p: Problem<S>, used: seq<bool>, s: S, seen: seq<(seq<bool>, S)>)
    requires |used| == p.n && NoWay(p, used, s) && CoversScope(p, used, s, seen)
    ensures Covered(p, seen, (used, s))
  {
    forall tail | Stops(p, used, s, tail) ensures End(p, used, s, tail) in seen {
      assert InScope(p, used, s, tail);
    }
  }

  // When all branches are done with, so is the state they leave from.
  lemma AllBranches<S(!new)>(p: Problem<S>, used: seq<bool>, s: S, seen: seq<(seq<bool>, S)>)
    requires |used| == p.n && (used, s) in seen && forall j: nat :: j < p.n ==> BranchCovered(p, used, s, seen, j)
    ensures CoversScope(p, used, s, seen)
  {
    forall tail | InScope(p, used, s, tail) ensures End(p, used, s, tail) in seen {
      if tail != [] {
        ScopeWithin(p, used, s, tail);
        CountSet(used, tail[0]);
        assert BranchCovered(p, used, s, seen, tail[0]);
      }
    }
  }

  // When the branch at i succeeds, what is after it is out of scope.
  lemma UpToBranch<S(!new)>(p: Problem<S>, used: seq<bool>, s: S, seen: seq<(seq<bool>, S)>, i: nat)
    requires |used| == p.n && (used, s) in seen && Candidate(p, used, s, i).Some?
    requires forall j: nat :: j < i ==> BranchCovered(p, used, s, seen, j)
    requires CoversScope(p, used[i := true], Candidate(p, used, s, i).value, seen)
    requires !NoWay(p, used[i := true], Candidate(p, used, s, i).value)
    ensures CoversScope(p, used, s, seen)
  {
    var full :| Completes(p, used[i := true], Candidate(p, used, s, i).value, full);
    assert ([i] + full)[1..] == full;
    assert Completes(p, used, s, [i] + full);
    forall tail | InScope(p, used, s, tail) ensures End(p, used, s, tail) in seen {
      if tail != [] {
        assert LexLeq(tail, [i] + full);
        ScopeWithin(p, used, s, tail);
        CountSet(used, tail[0]);
        if tail[0] < i { assert BranchCovered(p, used, s, seen, tail[0]); }
      }
    }
  }

  // ----- while a search runs -----

  // Whatever is remembered on the way is in scope from here.
  ghost predicate AddsNodes<S(!new)>(p: Problem<S>, used: seq<bool>, s: S, memo: Memo<S>, memo': Memo<S>)
    requires |used| == p.n
  {
    forall e :: e in memo'.seen && e !in memo.seen ==> Reaches(p, used, s, e)
  }

  lemma NodesVia<S(!new)>(p: Problem<S>, used: seq<bool>, s: S, i: nat, memo: Memo<S>, memo': Memo<S>)
    requires |used| == p.n && Candidate(p, used, s, i).Some?
    requires forall j: nat :: j < i ==> Hopeless(p, used, s, j)
    requires AddsNodes(p, used[i := true], Candidate(p, used, s, i).value, memo, memo')
    ensures AddsNodes(p, used, s, memo, memo')
  {
    var next := Candidate(p, used, s, i).value;
    forall e | e in memo'.seen && e !in memo.seen ensures Reaches(p, used, s, e) {
      assert Reaches(p, used[i := true], next, e);
      var tail :| InScope(p, used[i := true], next, tail) && End(p, used[i := true], next, tail) == e;
      ScopeVia(p, used, s, i, tail);
      assert InScope(p, used, s, [i] + tail);
    }
  }

  lemma StillCovered<S(!new)>(p: Problem<S>, seen: seq<(seq<bool>, S)>, more: seq<(seq<bool>, S)>, d: nat,
                              e: (seq<bool>, S))
    requires CoveredBelow(p, seen, d, None) && more == seen + [e]
    ensures CoveredBelow(p, more, d, Some(e))
  {
    forall x | x in more && |x.0| == p.n && Count(x.0) >= d && x != e ensures Covered(p, more, x) {
      CoveredGrows(p, seen, more, x);
    }
  }

  lemma BranchesKept<S(!new)>(p: Problem<S>, used: seq<bool>, s: S, seen: seq<(seq<bool>, S)>,
                              more: seq<(seq<bool>, S)>, i: nat)
    requires |used| == p.n && seen <= more && forall j: nat :: j < i ==> BranchCovered(p, used, s, seen, j)
    ensures forall j: nat :: j < i ==> BranchCovered(p, used, s, more, j)
  {
    forall j: nat | j < i ensures BranchCovered(p, used, s, more, j) {
      assert BranchCovered(p, used, s, seen, j);
      if Candidate(p, used, s, j).Some? && Count(used) + 1 < p.n {
        CoveredGrows(p, seen, more, (used[j := true], Candidate(p, used, s, j).value));
      }
    }
  }

  // After the branch at i has failed.
  lemma BranchDone<S(!new)>(p: Problem<S>, used: seq<bool>, s: S, d: nat, seen: seq<(seq<bool>, S)>,
                            more: seq<(seq<bool>, S)>, i: nat)
    requires |used| == p.n && Candidate(p, used, s, i).Some? && Count(used) == d && seen <= more
    requires forall e :: e in more && e !in seen ==> |e.0| == p.n && Count(e.0) >= d + 1
    requires CoveredBelow(p, seen, d, Some((used, s))) && CoveredBelow(p, more, d + 1, None)
    requires CoversScope(p, used[i := true], Candidate(p, used, s, i).value, more)
    requires NoWay(p, used[i := true], Candidate(p, used, s, i).value)
    ensures BranchCovered(p, used, s, more, i) && CoveredBelow(p, more, d, Some((used, s)))
  {
    ScopeIsAll(p, used[i := true], Candidate(p, used, s, i).value, more);
    forall e | e in more && |e.0| == p.n && Count(e.0) >= d && e != (used, s) ensures Covered(p, more, e) {
      if e in seen { CoveredGrows(p, seen, more, e); }
    }
  }
}
