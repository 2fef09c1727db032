// The order in which the actions of a plan are dispatched.
module PlanOrder {
  import opened Base
  import opened Planners
  import opened Queue
  import opened Sim
  import opened Tape

  function ScheduledEvents(out: seq<Timed>, from: nat): seq<Event> {
    seq(|out|, k requires 0 <= k < |out| => Event(out[k].time, from + k, Fault(out[k].action)))
  }

  function PushedSince(from: nat): Event -> bool {
    (e: Event) => e.seqno >= from
  }

  function PushedBefore(from: nat): Event -> bool {
    (e: Event) => e.seqno < from
  }

  lemma {:induction false} RetainNone(q: seq<Event>, keep: Event -> bool)
    requires forall x :: x in q ==> !keep(x)
    ensures Retain(q, keep) == []
  {
    if q != [] {
      RetainNone(q[1..], keep);
    }
  }

  lemma RetainFirst(q: seq<Event>, e: Event, keep: Event -> bool)
    ensures Retain([e] + q, keep) == (if keep(e) then [e] else []) + Retain(q, keep)
  {
    assert ([e] + q)[1..] == q;
  }

  lemma LaterHeadDropsAll(q: seq<Event>, e: Event, keep: Event -> bool)
    requires Sorted(q) && forall x :: x in q && keep(x) ==> KeyLess(Key(x), Key(e))
    requires q != [] && KeyLess(Key(e), Key(q[0]))
    ensures Retain(q, keep) == []
  {
    HeadIsLeast(q);
    RetainNone(q, keep);
  }

  // An event later than every retained one is retained last.
  lemma {:induction false} RetainInserted(q: seq<Event>, e: Event, keep: Event -> bool)
    requires Sorted(q) && keep(e) && forall x :: x in q && keep(x) ==> KeyLess(Key(x), Key(e))
    ensures Retain(Insert(q, e), keep) == Retain(q, keep) + [e]
  {
    if q == [] {
      RetainFirst(q, e, keep);
    } else if KeyLess(Key(e), Key(q[0])) {
      RetainFirst(q, e, keep);
      LaterHeadDropsAll(q, e, keep);
    } else {
      HeadIsLeast(q);
      RetainInserted(q[1..], e, keep);
      RetainFirst(Insert(q[1..], e), q[0], keep);
    }
  }

  lemma {:induction false} RetainSkips(q: seq<Event>, e: Event, keep: Event -> bool)
    requires !keep(e)
    ensures Retain(Insert(q, e), keep) == Retain(q, keep)
  {
    if q == [] || KeyLess(Key(e), Key(q[0])) {
      assert ([e] + q)[1..] == q;
    } else {
      RetainSkips(q[1..], e, keep);
      assert ([q[0]] + Insert(q[1..], e))[1..] == Insert(q[1..], e);
    }
  }

  ghost predicate QueueOk(a: Agenda) {
    Sorted(a.queue) && forall e :: e in a.queue ==> e.seqno < a.seqno
  }

  // The events pushed since `from` are due by time t.
  ghost predicate DueBy(a: Agenda, from: nat, t: nat) {
    forall x :: x in a.queue && x.seqno >= from ==> x.time <= t
  }

  lemma PushLatest(a: Agenda, first: Timed, from: nat)
    requires QueueOk(a) && from <= a.seqno && DueBy(a, from, first.time)
    ensures var b := Push(a, first.time, Fault(first.action));
            && QueueOk(b) && DueBy(b, from, first.time)
            && Retain(b.queue, PushedSince(from))
               == Retain(a.queue, PushedSince(from)) + [Event(first.time, a.seqno, Fault(first.action))]
  {
    var e := Event(first.time, a.seqno, Fault(first.action));
    InsertMembers(a.queue, e);
    InsertSorted(a.queue, e);
    RetainInserted(a.queue, e, PushedSince(from));
  }

  // The list can be pushed behind the events pushed since `from`.
  ghost predicate Ready(a: Agenda, out: seq<Timed>, from: nat) {
    QueueOk(a) && TimeSorted(out) && from <= a.seqno && (out != [] ==> DueBy(a, from, out[0].time))
  }

  lemma ReadyNext(a: Agenda, out: seq<Timed>, from: nat)
    requires Ready(a, out, from) && out != []
    ensures var b := Push(a, out[0].time, Fault(out[0].action));
            && Ready(b, out[1..], from)
            && Retain(b.queue, PushedSince(from))
               == Retain(a.queue, PushedSince(from)) + [Event(out[0].time, a.seqno, Fault(out[0].action))]
  {
    PushLatest(a, out[0], from);
    assert out[1..] != [] ==> out[0].time <= out[1..][0].time == out[1].time;
  }

  // Pushing a time-ordered list puts its events, in its order, behind the
  // events pushed since `from`.
  lemma {:induction false} PushedInOrder(a: Agenda, out: seq<Timed>, from: nat)
    requires Ready(a, out, from)
    ensures Retain(PushFaults(a, out).queue, PushedSince(from))
         == Retain(a.queue, PushedSince(from)) + ScheduledEvents(out, a.seqno)
    decreases |out|
  {
    if out != [] {
      var b := Push(a, out[0].time, Fault(out[0].action));
      ReadyNext(a, out, from);
      PushedInOrder(b, out[1..], from);
      AppendTwice(Retain(a.queue, PushedSince(from)), Retain(b.queue, PushedSince(from)), out, a.seqno);
    }
  }

  lemma AppendTwice(before: seq<Event>, one: seq<Event>, out: seq<Timed>, seqno: nat)
    requires out != [] && one == before + [Event(out[0].time, seqno, Fault(out[0].action))]
    ensures one + ScheduledEvents(out[1..], seqno + 1) == before + ScheduledEvents(out, seqno)
  {
    ScheduledFirst(out, seqno);
    MoveAcross(before, [Event(out[0].time, seqno, Fault(out[0].action))], ScheduledEvents(out[1..], seqno + 1));
  }

  lemma ScheduledFirst(out: seq<Timed>, from: nat)
    requires out != []
    ensures ScheduledEvents(out, from)
         == [Event(out[0].time, from, Fault(out[0].action))] + ScheduledEvents(out[1..], from + 1)
  {
  }

  lemma {:induction false} OthersUnmoved(a: Agenda, out: seq<Timed>, from: nat)
    requires from <= a.seqno
    ensures Retain(PushFaults(a, out).queue, PushedBefore(from)) == Retain(a.queue, PushedBefore(from))
    decreases |out|
  {
    if out != [] {
      RetainSkips(a.queue, Event(out[0].time, a.seqno, Fault(out[0].action)), PushedBefore(from));
      OthersUnmoved(Push(a, out[0].time, Fault(out[0].action)), out[1..], from);
    }
  }

  lemma {:induction false} PushFaultsOk(a: Agenda, out: seq<Timed>)
    requires QueueOk(a)
    ensures QueueOk(PushFaults(a, out))
    decreases out
  {
    if out != [] {
      var e := Event(out[0].time, a.seqno, Fault(out[0].action));
      InsertMembers(a.queue, e);
      InsertSorted(a.queue, e);
      PushFaultsOk(Push(a, out[0].time, Fault(out[0].action)), out[1..]);
    }
  }

  lemma SortedEventsSorted(out: seq<Timed>, from: nat)
    requires Sorted(ScheduledEvents(out, from))
    ensures TimeSorted(out)
  {
    var events := ScheduledEvents(out, from);
    forall a, b | 0 <= a < b < |out| ensures out[a].time <= out[b].time {
      assert KeyLess(Key(events[a]), Key(events[b]));
    }
  }

  // Pushed faults stand in the order they were pushed in exactly when that is the
  // order of their times.
  lemma PushedInOrderIff(a: Agenda, out: seq<Timed>)
    requires QueueOk(a)
    ensures Retain(PushFaults(a, out).queue, PushedSince(a.seqno)) == ScheduledEvents(out, a.seqno) <==> TimeSorted(out)
  {
    if TimeSorted(out) {
      PushedInOrder(a, out, a.seqno);
      RetainNone(a.queue, PushedSince(a.seqno));
    }
    PushFaultsOk(a, out);
    RetainSorted(PushFaults(a, out).queue, PushedSince(a.seqno));
    if Retain(PushFaults(a, out).queue, PushedSince(a.seqno)) == ScheduledEvents(out, a.seqno) {
      SortedEventsSorted(out, a.seqno);
    }
  }

  // So do the actions of any plan, and the events queued before stand as they did.
  lemma PlanInOrderIff<L>(w: World<L>, plan: Planner, past: seq<Turn>, max: nat, tape: EntropyTape)
    requires QueueOk(w.agenda)
    ensures var a, out := w.agenda, Consult(plan, past, ViewOf(w), tape, max).2;
            var q := RunPlan(w, plan, past, max, tape).0.agenda.queue;
            && (Retain(q, PushedSince(a.seqno)) == ScheduledEvents(out, a.seqno) <==> TimeSorted(out))
            && Retain(q, PushedBefore(a.seqno)) == Retain(a.queue, PushedBefore(a.seqno))
  {
    var out := Consult(plan, past, ViewOf(w), tape, max).2;
    PushedInOrderIff(w.agenda, out);
    OthersUnmoved(w.agenda, out, w.agenda.seqno);
  }

  lemma PunctualOutput(plan: Planner, past: seq<Turn>, view: WorldView, tape: EntropyTape, max: nat)
    requires Punctual(plan, view) && OnlySaw(past, view)
    ensures TimeSorted(Consult(plan, past, view, tape, max).2)
  {
    var (_, past', out) := Consult(plan, past, view, tape, max);
    ConsultMakes(plan, past, view, tape, max);
    assert TimeSorted(Made(plan, past'));
    SuffixSorted(Made(plan, past), out);
  }

  lemma SuffixSorted(front: seq<Timed>, back: seq<Timed>)
    requires TimeSorted(front + back)
    ensures TimeSorted(back)
  {
    assert forall k :: 0 <= k < |back| ==> back[k] == (front + back)[|front| + k];
  }

  // A punctual plan always gives its actions in that order.
  lemma PlanInOrder<L>(w: World<L>, plan: Planner, past: seq<Turn>, max: nat, tape: EntropyTape)
    requires QueueOk(w.agenda) && Punctual(plan, ViewOf(w)) && OnlySaw(past, ViewOf(w))
    ensures var a, out := w.agenda, Consult(plan, past, ViewOf(w), tape, max).2;
            var q := RunPlan(w, plan, past, max, tape).0.agenda.queue;
            && Retain(q, PushedSince(a.seqno)) == ScheduledEvents(out, a.seqno)
            && Retain(q, PushedBefore(a.seqno)) == Retain(a.queue, PushedBefore(a.seqno))
  {
    PunctualOutput(plan, past, ViewOf(w), tape, max);
    PlanInOrderIff(w, plan, past, max, tape);
  }
}
