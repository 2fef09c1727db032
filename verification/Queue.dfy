// The event queue, kept as the list of its events in dispatch order.
module Queue {
  import opened Nemesis

  type TaskId = nat
  type TimerId = nat
  type Message = string

  datatype EventKind =
    | PollTask(task: TaskId)
    | TimerFire(timer: TimerId)
    | DeliverMsg(source: NodeId, target: NodeId, msg: Message)
    | Fault(action: NemesisAction)

  datatype Event = Event(time: nat, seqno: nat, kind: EventKind)

  predicate KeyLess(a: (nat, nat), b: (nat, nat)) {
    a.0 < b.0 || (a.0 == b.0 && a.1 < b.1)
  }

  function Key(e: Event): (nat, nat) {
    (e.time, e.seqno)
  }

  ghost predicate Sorted(q: seq<Event>) {
    forall i, j :: 0 <= i < j < |q| ==> KeyLess(Key(q[i]), Key(q[j]))
  }

  function Insert(q: seq<Event>, e: Event): seq<Event> {
    if q == [] || KeyLess(Key(e), Key(q[0])) then [e] + q else [q[0]] + Insert(q[1..], e)
  }

  function Retain(q: seq<Event>, keep: Event -> bool): seq<Event> {
    if q == [] then [] else (if keep(q[0]) then [q[0]] else []) + Retain(q[1..], keep)
  }

  lemma {:induction false} InsertMembers(q: seq<Event>, e: Event)
    ensures forall x :: x in Insert(q, e) <==> x == e || x in q
    ensures |Insert(q, e)| == |q| + 1
  {
    if q != [] && !KeyLess(Key(e), Key(q[0])) {
      InsertMembers(q[1..], e);
      assert q == [q[0]] + q[1..];
    }
  }

  lemma {:induction false} InsertSorted(q: seq<Event>, e: Event)
    requires Sorted(q) && forall x :: x in q ==> x.seqno != e.seqno
    ensures Sorted(Insert(q, e))
  {
    if q != [] && !KeyLess(Key(e), Key(q[0])) {
      var tail := q[1..];
      InsertSorted(tail, e);
      InsertMembers(tail, e);
      var r := Insert(tail, e);
      forall j | 0 <= j < |r| ensures KeyLess(Key(q[0]), Key(r[j])) {
        assert r[j] in r;
        if r[j] != e {
          var k :| 0 <= k < |tail| && tail[k] == r[j];
          assert q[k + 1] == tail[k];
        } else {
          assert q[0] in q;
        }
      }
    } else if q != [] {
      forall j | 0 <= j < |q| ensures KeyLess(Key(e), Key(q[j])) {
        if j > 0 { assert KeyLess(Key(q[0]), Key(q[j])); }
      }
    }
  }

  lemma {:induction false} RetainMembers(q: seq<Event>, keep: Event -> bool)
    ensures forall x :: x in Retain(q, keep) <==> x in q && keep(x)
  {
    if q != [] {
      RetainMembers(q[1..], keep);
      assert q == [q[0]] + q[1..];
    }
  }

  lemma {:induction false} RetainSorted(q: seq<Event>, keep: Event -> bool)
    requires Sorted(q)
    ensures Sorted(Retain(q, keep))
  {
    if q != [] {
      var tail := q[1..];
      RetainSorted(tail, keep);
      RetainMembers(tail, keep);
      var r := Retain(tail, keep);
      forall j | 0 <= j < |r| ensures KeyLess(Key(q[0]), Key(r[j])) {
        assert r[j] in r;
        var k :| 0 <= k < |tail| && tail[k] == r[j];
        assert q[k + 1] == tail[k];
      }
    }
  }

  lemma HeadIsLeast(q: seq<Event>)
    requires Sorted(q) && q != []
    ensures Sorted(q[1..])
    ensures forall x :: x in q[1..] ==> KeyLess(Key(q[0]), Key(x))
    ensures forall x :: x in q <==> x == q[0] || x in q[1..]
  {
    forall x | x in q[1..] ensures KeyLess(Key(q[0]), Key(x)) {
      var k :| 0 <= k < |q[1..]| && q[1..][k] == x;
      assert q[k + 1] == x;
    }
    assert q == [q[0]] + q[1..];
  }
}
