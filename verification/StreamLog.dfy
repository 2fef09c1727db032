// When the ordered stream delivers what, and the log of events it keeps.
module StreamLog {
  import opened Base
  import opened Stream

  // ----- the log a run should leave -----

  // The first frame from `from` on that was not sent yet or never got through.
  function Reached(sends: seq<Sent>, from: nat): nat
    decreases |sends| - from
  {
    if from < |sends| && GetsThrough(sends, from) then Reached(sends, from + 1) else from
  }

  // The delay the first fault naming the frame asks for.
  ghost predicate DelayedTo(faults: seq<StreamFault>, s: nat, after: nat) {
    exists k :: && 0 <= k < |faults| && faults[k] == Delay(s, after)
                && forall j :: 0 <= j < k ==> !(faults[j].Delay? && faults[j].seqNo == s)
  }

  // The frame waits until a later one: frames up to the one it is delayed behind
  // are not all delivered yet.
  ghost predicate HeldBack(faults: seq<StreamFault>, s: nat, done: nat) {
    exists after: nat :: DelayedTo(faults, s, after) && done <= after
  }

  // How many frames are delivered once all these are sent. Only a send that gets
  // through and is not held back delivers anything.
  ghost function Progress(sends: seq<Sent>): nat
    decreases |sends|
  {
    if sends == [] then 0
    else
      var n := |sends| - 1;
      var done := Progress(sends[..n]);
      if GetsThrough(sends, n) && !HeldBack(sends[n].faults, n, done) then Reached(sends, done) else done
  }

  function Deliveries(source: nat, target: nat, from: nat, to: nat): seq<StreamEvent>
    decreases to - from
  {
    if from < to then [Delivered(source, target, from)] + Deliveries(source, target, from + 1, to) else []
  }

  ghost function LinkEvents(faults: seq<StreamFault>): seq<StreamEvent> {
    (if Disconnect in faults then [Disconnected] else []) + if Reconnect in faults then [Reconnected] else []
  }

  // What the last of these sends logs before anything is delivered.
  ghost predicate Announces(sends: seq<Sent>, events: seq<StreamEvent>)
    requires sends != []
  {
    var n, faults := |sends| - 1, sends[|sends| - 1].faults;
    var link := LinkEvents(faults);
    if !LinkUp(sends, n) then events == link + [Blocked(n)]
    else if Drop(n) in faults then events == link + [Dropped(n)]
    else
      var queued := link + [Enqueued(n)] + if Duplicate(n) in faults then [Duplicated(n)] else [];
      || (exists after: nat :: DelayedTo(faults, n, after) && events == queued + [Delayed(n, after)])
      || ((forall after: nat :: !DelayedTo(faults, n, after)) && events == queued)
  }

  // Every send is announced, and what it delivers follows.
  ghost predicate IsLog(source: nat, target: nat, sends: seq<Sent>, events: seq<StreamEvent>)
    decreases |sends|
  {
    if sends == [] then events == []
    else
      var n := |sends| - 1;
      exists before, announced ::
        && IsLog(source, target, sends[..n], before) && Announces(sends, announced)
        && events == before + announced + Deliveries(source, target, Progress(sends[..n]), Progress(sends))
  }

  // ----- delays -----

  lemma {:induction false} DelayOfIs(faults: seq<StreamFault>, s: nat)
    ensures forall after: nat :: DelayedTo(faults, s, after) <==> DelayOf(faults, s) == Some(after)
  {
    if faults != [] {
      DelayOfIs(faults[1..], s);
      forall after: nat ensures DelayedTo(faults, s, after) <==> DelayOf(faults, s) == Some(after) {
        DelayFirst(faults, s, after);
      }
    }
  }

  lemma DelayFirst(faults: seq<StreamFault>, s: nat, after: nat)
    requires faults != []
    ensures DelayedTo(faults, s, after) <==>
              if faults[0].Delay? && faults[0].seqNo == s then faults[0].after == after
              else DelayedTo(faults[1..], s, after)
  {
    var rest := faults[1..];
    if DelayedTo(faults, s, after) {
      var k :| && 0 <= k < |faults| && faults[k] == Delay(s, after)
               && forall j :: 0 <= j < k ==> !(faults[j].Delay? && faults[j].seqNo == s);
      if !(faults[0].Delay? && faults[0].seqNo == s) {
        assert rest[k - 1] == Delay(s, after);
        assert forall j :: 0 <= j < k - 1 ==> rest[j] == faults[j + 1];
      }
    }
    if faults[0] == Delay(s, after) {
      assert faults[0] == Delay(s, after);
    } else if !(faults[0].Delay? && faults[0].seqNo == s) && DelayedTo(rest, s, after) {
      var k :| && 0 <= k < |rest| && rest[k] == Delay(s, after)
               && forall j :: 0 <= j < k ==> !(rest[j].Delay? && rest[j].seqNo == s);
      assert faults[k + 1] == Delay(s, after);
      forall j | 0 <= j < k + 1 ensures !(faults[j].Delay? && faults[j].seqNo == s) {
        if j > 0 { assert rest[j - 1] == faults[j]; }
      }
    }
  }

  // ----- draining -----

  lemma {:induction false} DrainLogs(w: Wire, sends: seq<Sent>)
    requires Tracks(w, sends) && w.nextDeliver <= |sends|
    ensures Drain(w).nextDeliver == Reached(sends, w.nextDeliver)
    ensures Drain(w).events == w.events + Deliveries(w.source, w.target, w.nextDeliver, Drain(w).nextDeliver)
    ensures Drain(w).source == w.source && Drain(w).target == w.target && Drain(w).nextDeliver >= w.nextDeliver
    decreases |sends| - w.nextDeliver
  {
    if w.nextDeliver in w.buffered {
      assert (w.buffered - {w.nextDeliver}).Keys == w.buffered.Keys - {w.nextDeliver};
      assert w.buffered[w.nextDeliver].seqNo == w.nextDeliver && w.nextDeliver !in w.deliveredOnce;
      DeliverNextTracks(w, sends);
      DrainLogs(DeliverNext(w), sends);
      MoveAcross(w.events, [Delivered(w.source, w.target, w.nextDeliver)],
                 Deliveries(w.source, w.target, w.nextDeliver + 1, Drain(w).nextDeliver));
    }
  }

  // ----- one more send -----

  ghost predicate Logged(w: Wire, sends: seq<Sent>) {
    && Tracks(w, sends) && w.nextDeliver == Progress(sends) && w.nextDeliver <= |sends|
    && IsLog(w.source, w.target, sends, w.events)
  }

  lemma SettleLogs(w: Wire, sends: seq<Sent>, s: nat, faults: seq<StreamFault>)
    requires Tracks(w, sends) && w.nextDeliver <= |sends|
    ensures var w' := Settle(w, s, faults);
            var held := HeldBack(faults, s, w.nextDeliver);
            && w'.nextDeliver == (if held then w.nextDeliver else Reached(sends, w.nextDeliver))
            && w'.source == w.source && w'.target == w.target && w'.nextDeliver >= w.nextDeliver
            && w'.events == w.events + (match DelayOf(faults, s) case None => [] case Some(a) => [Delayed(s, a)])
                            + Deliveries(w.source, w.target, w.nextDeliver, w'.nextDeliver)
  {
    DelayOfIs(faults, s);
    match DelayOf(faults, s)
    case None =>
      DrainLogs(w, sends);
      assert w.events + [] == w.events;
    case Some(after) =>
      assert DelayedTo(faults, s, after);
      DrainLogs(w.(events := w.events + [Delayed(s, after)]), sends);
  }

  lemma AnnounceLost(w: Wire, sends: seq<Sent>, more: Sent) returns (announced: seq<StreamEvent>)
    requires Tracks(w, sends) && !GetsThrough(sends + [more], |sends|)
    ensures Announces(sends + [more], announced)
    ensures var w' := AfterSend(w, more.bytes, more.faults);
            && w'.nextDeliver == w.nextDeliver && w'.source == w.source && w'.target == w.target
            && w'.events == w.events + announced
  {
    var linked := Link(w.(nextSend := w.nextSend + 1), more.faults);
    LinkSets(w.(nextSend := w.nextSend + 1), sends, more);
    assert linked.events == w.events + LinkEvents(more.faults);
    var last := if linked.connected then [Dropped(|sends|)] else [Blocked(|sends|)];
    announced := LinkEvents(more.faults) + last;
    MoveAcross(w.events, LinkEvents(more.faults), last);
  }

  ghost function Queuing(n: nat, faults: seq<StreamFault>): seq<StreamEvent> {
    LinkEvents(faults) + [Enqueued(n)] + if Duplicate(n) in faults then [Duplicated(n)] else []
  }

  lemma EnqueueLogs(w: Wire, n: nat, more: Sent)
    ensures Enqueue(Link(w, more.faults), Frame(n, more.bytes), more.faults).events
            == w.events + Queuing(n, more.faults)
  {
    var linked := Link(w, more.faults);
    assert linked.events == w.events + LinkEvents(more.faults);
    MoveAcross(w.events, LinkEvents(more.faults), [Enqueued(n)]);
    if Duplicate(n) in more.faults {
      MoveAcross(w.events, LinkEvents(more.faults) + [Enqueued(n)], [Duplicated(n)]);
    }
  }

  lemma AnnouncedSo(sends: seq<Sent>, late: seq<StreamEvent>)
    requires sends != [] && GetsThrough(sends, |sends| - 1)
    requires var n, faults := |sends| - 1, sends[|sends| - 1].faults;
             late == match DelayOf(faults, n) case None => [] case Some(a) => [Delayed(n, a)]
    ensures Announces(sends, Queuing(|sends| - 1, sends[|sends| - 1].faults) + late)
  {
    var n, faults := |sends| - 1, sends[|sends| - 1].faults;
    DelayOfIs(faults, n);
    if DelayOf(faults, n).None? {
      assert Queuing(n, faults) + late == Queuing(n, faults);
    } else {
      assert DelayedTo(faults, n, DelayOf(faults, n).value);
    }
  }

  lemma AnnounceKept(w: Wire, sends: seq<Sent>, more: Sent) returns (announced: seq<StreamEvent>)
    requires Tracks(w, sends) && w.nextDeliver <= |sends| && GetsThrough(sends + [more], |sends|)
    ensures Announces(sends + [more], announced)
    ensures var w' := AfterSend(w, more.bytes, more.faults);
            && w'.nextDeliver == (if HeldBack(more.faults, |sends|, w.nextDeliver) then w.nextDeliver
                                  else Reached(sends + [more], w.nextDeliver))
            && w'.source == w.source && w'.target == w.target
            && w'.events == w.events + announced + Deliveries(w.source, w.target, w.nextDeliver, w'.nextDeliver)
  {
    var n := |sends|;
    var w1 := w.(nextSend := w.nextSend + 1);
    var w2 := Enqueue(Link(w1, more.faults), Frame(n, more.bytes), more.faults);
    SendKept(w, sends, more);
    EnqueueLogs(w1, n, more);
    SettleLogs(w2, sends + [more], n, more.faults);
    var late := match DelayOf(more.faults, n) case None => [] case Some(a) => [Delayed(n, a)];
    AnnouncedSo(sends + [more], late);
    announced := Queuing(n, more.faults) + late;
    MoveAcross(w.events, Queuing(n, more.faults), late);
  }

  // What a send appends to the log, and how far it lets the stream get.
  lemma Announcing(w: Wire, sends: seq<Sent>, more: Sent) returns (announced: seq<StreamEvent>)
    requires Tracks(w, sends) && w.nextDeliver <= |sends|
    ensures Announces(sends + [more], announced)
    ensures var all, w' := sends + [more], AfterSend(w, more.bytes, more.faults);
            var through := GetsThrough(all, |sends|) && !HeldBack(more.faults, |sends|, w.nextDeliver);
            && w'.nextDeliver == (if through then Reached(all, w.nextDeliver) else w.nextDeliver)
            && w'.source == w.source && w'.target == w.target
            && w'.events == w.events + announced + Deliveries(w.source, w.target, w.nextDeliver, w'.nextDeliver)
  {
    if GetsThrough(sends + [more], |sends|) {
      announced := AnnounceKept(w, sends, more);
    } else {
      announced := AnnounceLost(w, sends, more);
    }
  }

  lemma SendLogs(w: Wire, sends: seq<Sent>, more: Sent)
    requires Logged(w, sends)
    ensures Logged(AfterSend(w, more.bytes, more.faults), sends + [more])
  {
    SendTracks(w, sends, more);
    var announced := Announcing(w, sends, more);
    assert (sends + [more])[..|sends|] == sends;
    ReachedInside(sends + [more], w.nextDeliver);
  }

  lemma {:induction false} ReachedInside(sends: seq<Sent>, from: nat)
    requires from <= |sends|
    ensures from <= Reached(sends, from) <= |sends|
    decreases |sends| - from
  {
    if from < |sends| && GetsThrough(sends, from) { ReachedInside(sends, from + 1); }
  }

  // At every moment of a run the stream has delivered exactly what its sends so
  // far let through and do not hold back, and has logged each send, with what
  // became of it, and then what it delivered.
  lemma {:induction false} RunIsLogged(source: nat, target: nat, sends: seq<Sent>)
    ensures var w := Run(Open(source, target), sends);
            && |w.delivered| == Progress(sends) && IsLog(source, target, sends, w.events)
    ensures Logged(Run(Open(source, target), sends), sends)
    ensures Run(Open(source, target), sends).source == source && Run(Open(source, target), sends).target == target
    decreases |sends|
  {
    if sends != [] {
      var n := |sends| - 1;
      var w := Run(Open(source, target), sends[..n]);
      RunIsLogged(source, target, sends[..n]);
      SendLogs(w, sends[..n], sends[n]);
      var _ := Announcing(w, sends[..n], sends[n]);
      assert sends == sends[..n] + [sends[n]];
    }
  }
}
