// Real-time precedence between operations, and the predecessor lists both
// checkers compute before they search.
module Precedence {
  import opened Base
  import opened SerialOrders

  // When an operation was invoked and, unless it is in flight, completed.
  datatype Span = Span(invoke: nat, complete: Option<nat>)

  predicate Precedes(a: Span, b: Span) {
    a.complete.Some? && a.complete.value <= b.invoke
  }

  predicate Before(spans: seq<Span>, i: nat, j: nat) {
    i < |spans| && j < |spans| && i != j && Precedes(spans[i], spans[j])
  }

  // The predecessors of operation j below `upto`, in ascending order.
  ghost predicate IsPredecessorList(spans: seq<Span>, j: nat, upto: nat, list: seq<nat>) {
    StrictlyIncreasing(list) && forall i: nat :: i in list <==> i < upto && Before(spans, i, j)
  }

  ghost predicate AllPredecessors(spans: seq<Span>, preds: seq<seq<nat>>) {
    |preds| == |spans| && forall j :: 0 <= j < |preds| ==> IsPredecessorList(spans, j, |spans|, preds[j])
  }

  lemma ExtendPredecessorList(spans: seq<Span>, j: nat, i: nat, list: seq<nat>)
    requires IsPredecessorList(spans, j, i, list)
    ensures IsPredecessorList(spans, j, i + 1, if Before(spans, i, j) then list + [i] else list)
  {
    var list' := list + [i];
    forall a, b | 0 <= a < b < |list'| ensures list'[a] < list'[b] {
      assert list[a] in list;
    }
    assert forall x :: x in list' <==> x in list || x == i;
  }

  method Predecessors(spans: seq<Span>) returns (preds: seq<seq<nat>>)
    ensures AllPredecessors(spans, preds)
  {
    preds := seq(|spans|, _ => []);
    for i := 0 to |spans|
      invariant |preds| == |spans|
      invariant forall j :: 0 <= j < |spans| ==> IsPredecessorList(spans, j, i, preds[j])
    {
      if spans[i].complete.Some? {
        for j := 0 to |spans|
          invariant |preds| == |spans|
          invariant forall k :: 0 <= k < j ==> IsPredecessorList(spans, k, i + 1, preds[k])
          invariant forall k :: j <= k < |spans| ==> IsPredecessorList(spans, k, i, preds[k])
        {
          ExtendPredecessorList(spans, j, i, preds[j]);
          if i != j && spans[i].complete.value <= spans[j].invoke {
            preds := preds[j := preds[j] + [i]];
          }
        }
      }
    }
  }

  // Neither used nor waiting for a predecessor.
  method Ready<S>(ghost p: Problem<S>, ghost spans: seq<Span>, preds: seq<seq<nat>>, used: array<bool>, i: nat)
    returns (ready: bool)
    requires i < p.n == |spans| == used.Length && AllPredecessors(spans, preds)
    requires forall j: nat :: p.prec(j, i) <==> Before(spans, j, i)
    ensures ready == Enabled(p, used[..], i)
  {
    var list := preds[i];
    assert IsPredecessorList(spans, i, |spans|, list);
    forall k | 0 <= k < |list| ensures list[k] < |spans| {
      assert list[k] in list;
    }
    ready := !used[i] && forall k :: 0 <= k < |list| ==> used[list[k]];
    if ready {
      forall j: nat | j < p.n && p.prec(j, i) ensures used[j] {
        assert j in list;
      }
    } else if !used[i] {
      var k :| 0 <= k < |list| && !used[list[k]];
      assert list[k] in list;
    }
  }
}
