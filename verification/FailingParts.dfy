// How small the failing part of a history gets: no operation can be removed from
// it when refutation survives adding operations, and otherwise one may be.
module FailingParts {
  import opened Base
  import opened Checker
  import opened Models
  import opened SerialOrders

  // Putting operations back never makes a refuted part of the history acceptable.
  ghost predicate MoreRefutes<S, I, O>(model: Model<S, I, O>, ops: seq<OpRecord<I, O>>, maxSteps: nat) {
    forall few, many ::
      IsSublist(few, |ops|) && IsSublist(many, |ops|) && Within(few, many) && Refuted(model, Sub(ops, few), maxSteps)
      ==> Refuted(model, Sub(ops, many), maxSteps)
  }

  ghost predicate Within(few: seq<nat>, many: seq<nat>) {
    forall x :: x in few ==> x in many
  }

  // Nothing can be removed and leave a refuted part.
  ghost predicate IsIrreducible<S, I, O>(model: Model<S, I, O>, ops: seq<OpRecord<I, O>>, maxSteps: nat,
                                         keep: seq<nat>)
    requires IsSublist(keep, |ops|)
  {
    forall k :: 0 <= k < |keep| ==> !Refuted(model, Sub(ops, RemoveAt(keep, k)), maxSteps)
  }

  lemma NothingIsNotRefuted<S(!new), I, O>(model: Model<S, I, O>, maxSteps: nat)
    ensures !Refuted(model, [], maxSteps)
  {
    EmptyIsLinearizable(model);
    if Refuted(model, [], maxSteps) {
      RefutedMeansNone(model, [], maxSteps);
      assert false;
    }
  }

  lemma RemovedSublist(keep: seq<nat>, n: nat, k: nat)
    requires IsSublist(keep, n) && k < |keep|
    ensures IsSublist(RemoveAt(keep, k), n)
    ensures forall x :: x in RemoveAt(keep, k) <==> x in keep && x != keep[k]
  {
    forall x | x in keep && x != keep[k] ensures x in RemoveAt(keep, k) {
      var j :| 0 <= j < |keep| && keep[j] == x;
      assert RemoveAt(keep, k)[if j < k then j else j - 1] == x;
    }
  }

  // When more operations refute no less, no operation is left that could go.
  lemma MinimizedIsIrreducible<S(!new), I, O>(model: Model<S, I, O>, ops: seq<OpRecord<I, O>>, maxSteps: nat,
                                              ids: seq<nat>, keep: seq<nat>)
    requires IsMinimized(model, ops, maxSteps, ids, keep) && MoreRefutes(model, ops, maxSteps)
    ensures IsIrreducible(model, ops, maxSteps, keep)
  {
    forall k | 0 <= k < |keep| ensures !Refuted(model, Sub(ops, RemoveAt(keep, k)), maxSteps) {
      assert KeptForCause(model, ops, maxSteps, keep, k);
      var before :| TriedFrom(model, ops, maxSteps, keep, k, before);
      RemovedSublist(keep, |ops|, k);
      RemovedSublist(before, |ops|, k);
      assert before[k] == before[..k+1][k] == keep[k];
      if |before| == 1 {
        assert Sub(ops, RemoveAt(keep, k)) == [] by {
          if RemoveAt(keep, k) != [] { OnlyOne(before, keep, k); }
        }
        NothingIsNotRefuted(model, maxSteps);
      } else {
        assert Within(RemoveAt(keep, k), RemoveAt(before, k));
      }
    }
  }

  lemma {:induction false} MinimizedNoLonger<S, I, O>(model: Model<S, I, O>, ops: seq<OpRecord<I, O>>, maxSteps: nat,
                                                      kept: seq<nat>, pos: nat)
    requires forall k :: 0 <= k < |kept| ==> kept[k] < |ops|
    ensures |Minimized(model, ops, maxSteps, kept, pos)| <= |kept|
    decreases |kept| - pos
  {
    if pos < |kept| {
      var candidate := RemoveAt(kept, pos);
      if candidate == [] || !Refuted(model, Sub(ops, candidate), maxSteps) {
        MinimizedNoLonger(model, ops, maxSteps, kept, pos + 1);
      } else {
        MinimizedNoLonger(model, ops, maxSteps, candidate, pos);
      }
    }
  }

  lemma {:induction false} UnchangedFrom<S(!new), I, O>(model: Model<S, I, O>, ops: seq<OpRecord<I, O>>, maxSteps: nat,
                                                        keep: seq<nat>, pos: nat)
    requires IsSublist(keep, |ops|)
    ensures Minimized(model, ops, maxSteps, keep, pos) == keep
            <==> forall k :: pos <= k < |keep| ==> !Refuted(model, Sub(ops, RemoveAt(keep, k)), maxSteps)
    decreases |keep| - pos
  {
    if pos < |keep| {
      var candidate := RemoveAt(keep, pos);
      if candidate == [] {
        assert Sub(ops, candidate) == [];
        NothingIsNotRefuted(model, maxSteps);
      }
      if Refuted(model, Sub(ops, candidate), maxSteps) {
        MinimizedNoLonger(model, ops, maxSteps, candidate, pos);
      } else {
        UnchangedFrom(model, ops, maxSteps, keep, pos + 1);
      }
    }
  }

  // No operation can be removed from a part exactly when one more greedy pass
  // over it changes nothing.
  lemma IrreducibleIffUnchanged<S(!new), I, O>(model: Model<S, I, O>, ops: seq<OpRecord<I, O>>, maxSteps: nat,
                                               keep: seq<nat>)
    requires IsSublist(keep, |ops|)
    ensures IsIrreducible(model, ops, maxSteps, keep) <==> Minimized(model, ops, maxSteps, keep, 0) == keep
  {
    UnchangedFrom(model, ops, maxSteps, keep, 0);
  }

  lemma OnlyOne(before: seq<nat>, keep: seq<nat>, k: nat)
    requires |before| == 1 && k < |keep| && keep[k] == before[0] && Within(keep, before)
    requires StrictlyIncreasing(keep)
    ensures RemoveAt(keep, k) == []
  {
    if |keep| > 1 {
      var j := if k == 0 then 1 else 0;
      assert keep[j] in keep;
    }
  }

  // ----- a history that stays reducible -----

  // Write 1, then write 2, then read 1, listed with the second write first.
  function History(): seq<OpRecord<RegisterInput<int>, RegisterOutput<int>>> {
    [OpRecord(0, 0, 2, Some(3), Write(2), Some(RegisterOutput<int>.Ok)),
     OpRecord(1, 0, 0, Some(1), Write(1), Some(RegisterOutput<int>.Ok)),
     OpRecord(2, 0, 4, Some(5), Read, Some(RegisterOutput<int>.Value(1)))]
  }

  // A budget under which no search over these operations is cut short.
  ghost predicate Enough(max: nat) {
    max >= TreeSize(1, 1) && max >= TreeSize(2, 2) && max >= TreeSize(3, 3)
  }

  lemma RefutedIff<S(!new), I, O>(model: Model<S, I, O>, ops: seq<OpRecord<I, O>>, max: nat)
    requires max >= TreeSize(|ops|, |ops|)
    ensures Refuted(model, ops, max) <==> forall path :: !IsLinearization(model, ops, path)
  {
    var p := LinProblem(model, ops);
    L.SearchExact(p, model.init, max);
    L.LargeBudgetDecides(p, model.init, max);
    var r := L.Search(p, model.init, max);
    if r.found.Some? {
      assert IsLinearization(model, ops, r.found.value);
    }
  }

  lemma PartOf(keep: seq<nat>)
    requires forall k :: 0 <= k < |keep| ==> keep[k] < 3
    ensures |Sub(History(), keep)| == |keep|
    ensures forall k :: 0 <= k < |keep| ==> Sub(History(), keep)[k] == History()[keep[k]]
  {
  }

  lemma WholeRefuted(path: seq<nat>)
    ensures !IsLinearization(Register(0), History(), path)
  {
    var p := LinProblem(Register(0), History());
    if IsPermutation(path, 3) && Respects(p, path) {
      assert p.prec(1, 0) && p.prec(0, 2) && p.prec(1, 2);
      assert !p.prec(path[1], path[0]) && !p.prec(path[2], path[0]) && !p.prec(path[2], path[1]);
      assert path == [1, 0, 2];
      assert path[1..] == [0, 2] && path[1..][1..] == [2];
      assert Replay(p, 0, path) == Replay(p, 1, [0, 2]) == Replay(p, 2, [2]) == None;
    }
  }

  lemma ReadAfterSecondRefuted(path: seq<nat>)
    ensures !IsLinearization(Register(0), Sub(History(), [0, 2]), path)
  {
    PartOf([0, 2]);
    var p := LinProblem(Register(0), Sub(History(), [0, 2]));
    if IsPermutation(path, 2) && Respects(p, path) {
      assert p.prec(0, 1) && !p.prec(path[1], path[0]);
      assert path == [0, 1] && path[1..] == [1];
      assert Replay(p, 0, path) == Replay(p, 2, [1]) == None;
    }
  }

  lemma ReadAloneRefuted(path: seq<nat>)
    ensures !IsLinearization(Register(0), Sub(History(), [2]), path)
  {
    PartOf([2]);
    var p := LinProblem(Register(0), Sub(History(), [2]));
    if IsPermutation(path, 1) {
      assert path == [0];
      assert Replay(p, 0, path) == None;
    }
  }

  lemma FirstWriteExplainsRead()
    ensures IsLinearization(Register(0), Sub(History(), [1, 2]), [0, 1])
  {
    PartOf([1, 2]);
    var p := LinProblem(Register(0), Sub(History(), [1, 2]));
    var path: seq<nat> := [0, 1];
    assert path[1..] == [1] && path[1..][1..] == [];
    assert Replay(p, 0, path) == Replay(p, 1, [1]) == Replay(p, 1, []) == Some(1);
  }

  lemma WriteAloneFine()
    ensures IsLinearization(Register(0), Sub(History(), [0]), [0])
  {
    PartOf([0]);
    var p := LinProblem(Register(0), Sub(History(), [0]));
    var path: seq<nat> := [0];
    assert path[1..] == [];
    assert Replay(p, 0, path) == Replay(p, 2, []) == Some(2);
  }

  // Which parts of the history the search refutes.
  lemma RefutedParts(max: nat)
    requires Enough(max)
    ensures Refuted(Register(0), History(), max)
    ensures Refuted(Register(0), Sub(History(), [0, 2]), max) && Refuted(Register(0), Sub(History(), [2]), max)
  {
    RefutedIff(Register(0), History(), max);
    forall path ensures !IsLinearization(Register(0), History(), path) { WholeRefuted(path); }
    RefutedIff(Register(0), Sub(History(), [0, 2]), max);
    forall path ensures !IsLinearization(Register(0), Sub(History(), [0, 2]), path) { ReadAfterSecondRefuted(path); }
    RefutedIff(Register(0), Sub(History(), [2]), max);
    forall path ensures !IsLinearization(Register(0), Sub(History(), [2]), path) { ReadAloneRefuted(path); }
  }

  lemma AcceptedParts(max: nat)
    requires Enough(max)
    ensures !Refuted(Register(0), Sub(History(), [1, 2]), max) && !Refuted(Register(0), Sub(History(), [0]), max)
  {
    RefutedIff(Register(0), Sub(History(), [1, 2]), max);
    FirstWriteExplainsRead();
    RefutedIff(Register(0), Sub(History(), [0]), max);
    WriteAloneFine();
  }

  lemma Keeps<S, I, O>(model: Model<S, I, O>, ops: seq<OpRecord<I, O>>, max: nat, kept: seq<nat>, pos: nat,
                       candidate: seq<nat>)
    requires forall k :: 0 <= k < |kept| ==> kept[k] < |ops|
    requires pos < |kept| && candidate == RemoveAt(kept, pos) && !Refuted(model, Sub(ops, candidate), max)
    ensures Minimized(model, ops, max, kept, pos) == Minimized(model, ops, max, kept, pos + 1)
  {
  }

  lemma Removes<S, I, O>(model: Model<S, I, O>, ops: seq<OpRecord<I, O>>, max: nat, kept: seq<nat>, pos: nat,
                         candidate: seq<nat>)
    requires forall k :: 0 <= k < |kept| ==> kept[k] < |ops|
    requires pos < |kept| && candidate == RemoveAt(kept, pos) != [] && Refuted(model, Sub(ops, candidate), max)
    ensures Minimized(model, ops, max, kept, pos) == Minimized(model, ops, max, candidate, pos)
  {
  }

  lemma SecondWriteKept(max: nat)
    requires Enough(max)
    ensures Minimized(Register(0), History(), max, Range(3), 0) == Minimized(Register(0), History(), max, [0, 2], 1)
  {
    RefutedParts(max);
    AcceptedParts(max);
    Keeps(Register(0), History(), max, Range(3), 0, [1, 2]);
    Removes(Register(0), History(), max, Range(3), 1, [0, 2]);
  }

  lemma ReadKept(max: nat)
    requires Enough(max)
    ensures Minimized(Register(0), History(), max, [0, 2], 1) == [0, 2]
  {
    var kept: seq<nat> := [0, 2];
    AcceptedParts(max);
    Keeps(Register(0), History(), max, kept, 1, [0]);
    assert Minimized(Register(0), History(), max, kept, 2) == kept;
  }

  // The second write is tried first, and kept because the first still explains
  // the read; then the first goes, and nobody tries the second again.
  lemma MinimizedStaysReducible(max: nat)
    requires Enough(max)
    ensures Refuted(Register(0), History(), max)
    ensures var keep := Minimized(Register(0), History(), max, Range(3), 0);
            keep == [0, 2] && Refuted(Register(0), Sub(History(), RemoveAt(keep, 0)), max)
  {
    RefutedParts(max);
    SecondWriteKept(max);
    ReadKept(max);
    var kept: seq<nat> := [0, 2];
    assert RemoveAt(kept, 0) == [2];
  }
}
