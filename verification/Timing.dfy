// When the real-time precedence of the checker can be satisfied at all.
module Timing {
  import opened Base
  import opened SerialOrders
  import opened Precedence
  import Checker

  ghost predicate AllComplete(spans: seq<Span>) {
    forall i :: 0 <= i < |spans| ==> spans[i].complete.Some?
  }

  ghost predicate IsInstant(op: Span, t: nat) {
    op.invoke == t && op.complete == Some(t)
  }

  // Two operations that each come before the other.
  ghost predicate BlockEachOther(spans: seq<Span>, i: nat, j: nat) {
    Before(spans, i, j) && Before(spans, j, i)
  }

  ghost predicate SomeBlockEachOther(spans: seq<Span>) {
    exists i: nat, j: nat :: BlockEachOther(spans, i, j)
  }

  // Nothing stands before one of its predecessors.
  ghost predicate KeepsTime(spans: seq<Span>, path: seq<nat>) {
    forall a, b :: 0 <= a < b < |path| ==> !Before(spans, path[b], path[a])
  }

  ghost predicate HasTimedOrder(spans: seq<Span>) {
    exists path :: IsPermutation(path, |spans|) && KeepsTime(spans, path)
  }

  // Precedence by `complete <= invoke` leaves some order open exactly when no
  // two operations block each other: longer cycles do not arise without one of
  // length two, whatever the times are.
  lemma TimedOrderExistsIff(spans: seq<Span>)
    requires AllComplete(spans)
    ensures HasTimedOrder(spans) <==> !SomeBlockEachOther(spans)
  {
    if SomeBlockEachOther(spans) {
      forall path | IsPermutation(path, |spans|) ensures !KeepsTime(spans, path) {
        MutualBlockForbids(spans, path);
      }
    } else {
      var path := ArrangeByMiddle(spans, Below(|spans|));
      assert IsPermutation(path, |spans|);
      assert KeepsTime(spans, path);
    }
  }

  lemma MutualBlockForbids(spans: seq<Span>, path: seq<nat>)
    requires SomeBlockEachOther(spans) && IsPermutation(path, |spans|)
    ensures !KeepsTime(spans, path)
  {
    var i: nat, j: nat :| BlockEachOther(spans, i, j);
    DistinctBounded(path, |spans|);
    assert i in path && j in path;
    var a :| 0 <= a < |path| && path[a] == i;
    var b :| 0 <= b < |path| && path[b] == j;
    assert Before(spans, path[a], path[b]) && Before(spans, path[b], path[a]);
  }

  // Twice the middle of an operation's span. One-sided precedence raises it.
  function Middle(op: Span): nat
    requires op.complete.Some?
  {
    op.invoke + op.complete.value
  }

  lemma {:induction false} EarliestMiddle(spans: seq<Span>, rest: set<nat>) returns (m: nat)
    requires AllComplete(spans) && rest != {} && forall i :: i in rest ==> i < |spans|
    ensures m in rest && forall i :: i in rest ==> Middle(spans[m]) <= Middle(spans[i])
    decreases |rest|
  {
    m :| m in rest;
    if rest != {m} {
      var m' := EarliestMiddle(spans, rest - {m});
      forall i | i in rest
        ensures Middle(spans[if Middle(spans[m']) < Middle(spans[m]) then m' else m]) <= Middle(spans[i])
      {
        assert i == m || i in rest - {m};
      }
      if Middle(spans[m']) < Middle(spans[m]) { m := m'; }
    }
  }

  // Arrange the chosen operations by the middles of their spans.
  lemma {:induction false} ArrangeByMiddle(spans: seq<Span>, rest: set<nat>) returns (path: seq<nat>)
    requires AllComplete(spans) && !SomeBlockEachOther(spans) && forall i :: i in rest ==> i < |spans|
    ensures |path| == |rest| && Distinct(path) && forall i: nat :: i in path <==> i in rest
    ensures forall k :: 0 <= k < |path| ==> path[k] < |spans|
    ensures KeepsTime(spans, path)
    decreases |rest|
  {
    if rest == {} {
      return [];
    }
    var m := EarliestMiddle(spans, rest);
    var tail := ArrangeByMiddle(spans, rest - {m});
    path := [m] + tail;
    forall a, b | 0 <= a < b < |path| ensures path[a] != path[b] && !Before(spans, path[b], path[a]) {
      assert path[b] == tail[b-1] && tail[b-1] in tail;
      if a == 0 {
        assert !BlockEachOther(spans, path[b], m);
      } else {
        assert path[a] == tail[a-1];
      }
    }
    forall k | 0 <= k < |path| ensures path[k] < |spans| {
      assert path[k] in path;
    }
  }

  // Operations that do not end before they begin block each other exactly when
  // both begin and end at one instant.
  lemma BlockingIsInstant(spans: seq<Span>, i: nat, j: nat)
    requires i < |spans| && j < |spans| && i != j
    requires forall k :: k in {i, j} ==> spans[k].complete.Some? && spans[k].invoke <= spans[k].complete.value
    ensures BlockEachOther(spans, i, j) <==>
              IsInstant(spans[i], spans[j].invoke) && IsInstant(spans[j], spans[i].invoke)
  {
    assert i in {i, j} && j in {i, j};
  }

  // The checker rejects every history with such a pair, whatever the model and
  // whatever the operations returned.
  lemma MutualBlockRejected<S, I, O>(model: Checker.Model<S, I, O>, ops: seq<Checker.OpRecord<I, O>>)
    requires SomeBlockEachOther(Checker.Spans(ops))
    ensures forall path :: !Checker.IsLinearization(model, ops, path)
  {
    forall path | Checker.IsLinearization(model, ops, path) ensures false {
      MutualBlockForbids(Checker.Spans(ops), path);
    }
  }
}
