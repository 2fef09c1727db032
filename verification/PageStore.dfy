// A node's simulated storage device: a pending image, a committed image and the
// log of writes since the last flush.
module PageStore {
  import opened Base

  type Bytes = seq<bv8>

  datatype LogEntry = LogEntry(offset: nat, data: Bytes)

  datatype Store = Store(pending: Bytes, committed: Bytes, log: seq<LogEntry>)

  const EMPTY: Store := Store([], [], [])

  // ----- the operations as functions -----

  function Zeros(n: nat): Bytes {
    seq(n, _ => 0)
  }

  // Overwrite from `offset`, first filling any gap with zeros.
  function ApplyBytes(target: Bytes, offset: nat, data: Bytes): (r: Bytes)
    ensures |r| == Max(|target|, offset + |data|)
    ensures forall i :: 0 <= i < |r| ==>
      r[i] == if offset <= i < offset + |data| then data[i - offset] else if i < |target| then target[i] else 0
  {
    var end := offset + |data|;
    var grown := if |target| < end then target + Zeros(end - |target|) else target;
    grown[..offset] + data + grown[end..]
  }

  function ApplyLog(base: Bytes, log: seq<LogEntry>): Bytes {
    if log == [] then base
    else
      var last := log[|log| - 1];
      ApplyBytes(ApplyLog(base, log[..|log| - 1]), last.offset, last.data)
  }

  // A torn write keeps the first half of its bytes, rounded up.
  function Written(data: Bytes, torn: bool): Bytes {
    if torn && |data| > 1 then data[..(|data| + 1) / 2] else data
  }

  function WriteAt(s: Store, offset: nat, data: Bytes, torn: bool): Store {
    var written := Written(data, torn);
    s.(pending := ApplyBytes(s.pending, offset, written), log := s.log + [LogEntry(offset, written)])
  }

  // None: the original slices past the end of the image and panics.
  function ReadAt(s: Store, offset: nat, len: nat): Option<Bytes> {
    if offset > |s.pending| then None
    else Some(s.pending[offset..offset + Min(len, |s.pending| - offset)])
  }

  function Flush(s: Store, reorder: bool): Store {
    if reorder && |s.log| > 1 then
      var committed := ApplyLog(s.committed, Reversed(s.log));
      Store(committed, committed, [])
    else
      Store(s.pending, s.pending, [])
  }

  function Rotted(image: Bytes): Bytes {
    if image == [] then [] else [image[0] ^ 1] + image[1..]
  }

  function Recover(s: Store, bitRot: bool): Store {
    if bitRot then Store(Rotted(s.committed), Rotted(s.committed), [])
    else Store(s.committed, s.committed, [])
  }

  // ----- the operations in place -----

  class Device {
    var pending: Bytes
    var committed: Bytes
    var log: seq<LogEntry>

    ghost function Contents(): Store
      reads this
    {
      Store(pending, committed, log)
    }

    constructor ()
      ensures Contents() == EMPTY
    {
      pending, committed, log := [], [], [];
    }

    constructor Holding(store: Store)
      ensures Contents() == store
    {
      pending, committed, log := store.pending, store.committed, store.log;
    }

    method Snapshot() returns (store: Store)
      ensures store == Contents()
    {
      store := Store(pending, committed, log);
    }

    method Write(offset: nat, data: Bytes, torn: bool)
      modifies this
      ensures Contents() == WriteAt(old(Contents()), offset, data, torn)
    {
      var length := |data|;
      if torn && length > 1 {
        length := (length + 1) / 2;
      }
      var written := data[..length];
      assert written == Written(data, torn);
      pending := ApplyBytes(pending, offset, written);
      log := log + [LogEntry(offset, written)];
    }

    method FlushAll(reorder: bool)
      modifies this
      ensures Contents() == Flush(old(Contents()), reorder)
    {
      if reorder && |log| > 1 {
        var image := committed;
        var k := |log|;
        ghost var backwards := Reversed(log);
        ReversedAt(log, 0);
        while k > 0
          invariant 0 <= k <= |log| == |backwards| && Contents() == old(Contents())
          invariant image == ApplyLog(committed, backwards[..|log| - k])
        {
          k := k - 1;
          ReversedAt(log, |log| - 1 - k);
          var done := |log| - k;
          assert backwards[..done][..done - 1] == backwards[..done - 1];
          image := ApplyBytes(image, log[k].offset, log[k].data);
        }
        assert backwards[..|log|] == backwards;
        committed := image;
        pending := image;
      } else {
        committed := pending;
      }
      log := [];
    }

    method CrashRecover(bitRot: bool)
      modifies this
      ensures Contents() == Recover(old(Contents()), bitRot)
    {
      pending := committed;
      log := [];
      if bitRot {
        if |pending| > 0 {
          pending := pending[0 := pending[0] ^ 1];
        }
        committed := pending;
      }
    }
  }

  lemma {:induction false} ReversedAt(log: seq<LogEntry>, k: nat)
    requires k < |log|
    ensures |Reversed(log)| == |log| && Reversed(log)[k] == log[|log| - 1 - k]
  {
    if |log| > 1 { ReversedAt(log[1..], if k < |log| - 1 then k else 0); }
  }

  // ----- whole runs -----

  datatype StoreOp = OpWrite(offset: nat, data: Bytes, torn: bool) | OpFlush(reorder: bool) | OpRecover(bitRot: bool)

  function Step(s: Store, op: StoreOp): Store {
    match op
    case OpWrite(offset, data, torn) => WriteAt(s, offset, data, torn)
    case OpFlush(reorder) => Flush(s, reorder)
    case OpRecover(bitRot) => Recover(s, bitRot)
  }

  function Run(s: Store, ops: seq<StoreOp>): Store {
    if ops == [] then s else Step(Run(s, ops[..|ops| - 1]), ops[|ops| - 1])
  }

  // Pending is the committed image with the logged writes applied in order.
  ghost predicate Consistent(s: Store) {
    s.pending == ApplyLog(s.committed, s.log)
  }

  lemma {:induction false} RunConsistent(s: Store, ops: seq<StoreOp>)
    requires Consistent(s)
    ensures Consistent(Run(s, ops))
  {
    if ops != [] {
      var before, op := Run(s, ops[..|ops| - 1]), ops[|ops| - 1];
      RunConsistent(s, ops[..|ops| - 1]);
      if op.OpWrite? {
        var log' := Step(before, op).log;
        assert log'[..|log'| - 1] == before.log;
      }
    }
  }

  // A recovery without bit rot restores what the last flush left, however much
  // was written since.
  lemma {:induction false} RecoveryRestoresFlush(s: Store, reorder: bool, writes: seq<StoreOp>)
    requires forall k :: 0 <= k < |writes| ==> writes[k].OpWrite?
    ensures Recover(Run(Flush(s, reorder), writes), false) == Flush(s, reorder)
  {
    WritesKeepCommitted(Flush(s, reorder), writes);
  }

  lemma {:induction false} WritesKeepCommitted(s: Store, writes: seq<StoreOp>)
    requires forall k :: 0 <= k < |writes| ==> writes[k].OpWrite?
    ensures Run(s, writes).committed == s.committed
  {
    if writes != [] { WritesKeepCommitted(s, writes[..|writes| - 1]); }
  }

  lemma ReadAfterWrite(s: Store, offset: nat, data: Bytes)
    ensures ReadAt(WriteAt(s, offset, data, false), offset, |data|) == Some(data)
  {
    assert ApplyBytes(s.pending, offset, data)[offset..offset + |data|] == data;
  }

  // A write changes exactly the bytes it covers, filling a gap before them with
  // zeros; a torn one covers only the first half of its bytes, the odd one
  // included.
  lemma WriteIs(s: Store, offset: nat, data: Bytes, torn: bool)
    ensures var n := if torn then |data| - |data| / 2 else |data|;
            var after := WriteAt(s, offset, data, torn);
            && after.committed == s.committed && after.log == s.log + [LogEntry(offset, data[..n])]
            && |after.pending| == Max(|s.pending|, offset + n)
            && forall i :: 0 <= i < |after.pending| ==>
                 after.pending[i] == if offset <= i < offset + n then data[i - offset]
                                     else if i < |s.pending| then s.pending[i] else 0
  {
    var n := if torn then |data| - |data| / 2 else |data|;
    assert Written(data, torn) == data[..n];
  }

  // Bit rot flips the lowest bit of the first byte and no other bit, so rotting
  // twice restores the image.
  lemma RotIs(s: Store)
    ensures var r := Recover(s, true);
            && r.pending == r.committed && r.log == [] && |r.committed| == |s.committed|
            && (s.committed != [] ==> r.committed[0] ^ s.committed[0] == 1 && r.committed[1..] == s.committed[1..])
            && Recover(r, true).committed == s.committed
  {
    if s.committed != [] {
      assert (s.committed[0] ^ 1) ^ s.committed[0] == 1;
      assert (s.committed[0] ^ 1) ^ 1 == s.committed[0];
      assert Recover(s, true).committed[1..] == s.committed[1..];
    }
  }

  // ----- byte by byte -----

  predicate Covers(w: LogEntry, i: nat) {
    w.offset <= i < w.offset + |w.data|
  }

  function ByteOf(w: LogEntry, i: nat): bv8
    requires Covers(w, i)
  {
    w.data[i - w.offset]
  }

  function LastCover(log: seq<LogEntry>, i: nat): Option<bv8> {
    if log == [] then None
    else
      var last := log[|log| - 1];
      if Covers(last, i) then Some(ByteOf(last, i)) else LastCover(log[..|log| - 1], i)
  }

  function FirstCover(log: seq<LogEntry>, i: nat): Option<bv8> {
    if log == [] then None
    else if Covers(log[0], i) then Some(ByteOf(log[0], i)) else FirstCover(log[1..], i)
  }

  function Reach(log: seq<LogEntry>): nat {
    if log == [] then 0
    else var last := log[|log| - 1]; Max(Reach(log[..|log| - 1]), last.offset + |last.data|)
  }

  function Overlay(base: Bytes, i: nat, cover: Option<bv8>): bv8 {
    match cover
    case Some(b) => b
    case None => if i < |base| then base[i] else 0
  }

  // In order, the last write covering a byte wins, and gaps read as zero.
  lemma {:induction false} ApplyLogBytes(base: Bytes, log: seq<LogEntry>)
    ensures |ApplyLog(base, log)| == Max(|base|, Reach(log))
    ensures forall i: nat :: i < |ApplyLog(base, log)| ==>
              ApplyLog(base, log)[i] == Overlay(base, i, LastCover(log, i))
    ensures forall i: nat :: LastCover(log, i).Some? ==> i < Reach(log)
  {
    if log != [] { ApplyLogBytes(base, log[..|log| - 1]); }
  }

  lemma {:induction false} ReversedCover(log: seq<LogEntry>, i: nat)
    ensures LastCover(Reversed(log), i) == FirstCover(log, i)
    ensures Reach(Reversed(log)) == Reach(log)
  {
    if log != [] {
      var r := Reversed(log);
      assert r[..|r| - 1] == Reversed(log[1..]) && r[|r| - 1] == log[0];
      ReversedCover(log[1..], i);
      ReachFront(log);
    }
  }

  lemma {:induction false} ReachFront(log: seq<LogEntry>)
    requires log != []
    ensures Reach(log) == Max(Reach(log[1..]), log[0].offset + |log[0].data|)
  {
    if |log| > 1 {
      ReachFront(log[..|log| - 1]);
      assert log[..|log| - 1][1..] == log[1..][..|log[1..]| - 1];
    }
  }

  // A reordered flush commits, at each byte, the first covering write; an
  // ordinary flush commits the last.
  lemma FlushBytes(s: Store, reorder: bool)
    requires Consistent(s)
    ensures var image := Flush(s, reorder).committed;
            && Flush(s, reorder).pending == image
            && |image| == Max(|s.committed|, Reach(s.log))
            && forall i: nat :: i < |image| ==>
                 image[i] == Overlay(s.committed, i, if reorder then FirstCover(s.log, i) else LastCover(s.log, i))
  {
    ApplyLogBytes(s.committed, s.log);
    ApplyLogBytes(s.committed, Reversed(s.log));
    forall i: nat { ReversedCover(s.log, i); }
    ReversedCover(s.log, 0);
    if |s.log| == 1 {
      assert forall i: nat :: FirstCover(s.log, i) == LastCover(s.log, i);
    }
  }

  // At every byte, the first and the last covering write agree.
  ghost predicate CoversAgree(log: seq<LogEntry>) {
    forall i: nat :: FirstCover(log, i) == LastCover(log, i)
  }

  // Reordering is invisible exactly when the covering writes agree.
  lemma ReorderInvisibleIff(s: Store)
    requires Consistent(s)
    ensures Flush(s, true) == Flush(s, false) <==> CoversAgree(s.log)
  {
    FlushBytes(s, true);
    FlushBytes(s, false);
    ApplyLogBytes(s.committed, s.log);
    var a, b := Flush(s, true), Flush(s, false);
    if a == b {
      forall i: nat ensures FirstCover(s.log, i) == LastCover(s.log, i) {
        CoveredAlike(s.log, i);
        if LastCover(s.log, i).Some? {
          assert a.committed[i] == b.committed[i];
        }
      }
    }
    if CoversAgree(s.log) {
      assert a.committed == b.committed;
    }
  }

  lemma {:induction false} CoveredAlike(log: seq<LogEntry>, i: nat)
    ensures FirstCover(log, i).Some? <==> exists k :: 0 <= k < |log| && Covers(log[k], i)
    ensures LastCover(log, i).Some? <==> exists k :: 0 <= k < |log| && Covers(log[k], i)
  {
    if log != [] {
      var tail, front := log[1..], log[..|log| - 1];
      CoveredAlike(tail, i);
      CoveredAlike(front, i);
      assert forall k :: 0 < k < |log| ==> log[k] == tail[k-1];
      assert forall k :: 0 <= k < |tail| ==> tail[k] == log[k+1];
      assert forall k :: 0 <= k < |front| ==> front[k] == log[k];
    }
  }

  // In particular when no two writes overlap.
  lemma DisjointWritesHideReorder(s: Store)
    requires Consistent(s)
    requires forall a, b, i: nat :: 0 <= a < b < |s.log| && Covers(s.log[a], i) ==> !Covers(s.log[b], i)
    ensures Flush(s, true) == Flush(s, false)
  {
    forall i: nat ensures FirstCover(s.log, i) == LastCover(s.log, i) { OneCover(s.log, i); }
    ReorderInvisibleIff(s);
  }

  lemma {:induction false} OneCover(log: seq<LogEntry>, i: nat)
    requires forall a, b :: 0 <= a < b < |log| && Covers(log[a], i) ==> !Covers(log[b], i)
    ensures FirstCover(log, i) == LastCover(log, i)
  {
    if log != [] {
      var tail := log[1..];
      if Covers(log[0], i) {
        CoveredAlike(tail, i);
        LastCoverSkips(log, i);
      } else {
        OneCover(tail, i);
        LastCoverSkips(log, i);
      }
    }
  }

  lemma {:induction false} LastCoverSkips(log: seq<LogEntry>, i: nat)
    requires log != []
    ensures LastCover(log, i) ==
            if LastCover(log[1..], i).Some? then LastCover(log[1..], i)
            else if Covers(log[0], i) then Some(ByteOf(log[0], i)) else None
  {
    if |log| > 1 {
      var front := log[..|log| - 1];
      LastCoverSkips(front, i);
      assert front[1..] == log[1..][..|log[1..]| - 1];
    }
  }
}
