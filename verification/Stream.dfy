// The ordered stream: frames are numbered as they are sent, buffered under
// faults, and delivered strictly in order.
module Stream {
  import opened Base

  newtype byte = x: int | 0 <= x < 256

  datatype Frame = Frame(seqNo: nat, bytes: seq<byte>)

  datatype StreamFault =
    | Drop(seqNo: nat)
    | Duplicate(seqNo: nat)
    | Delay(seqNo: nat, after: nat)
    | Disconnect
    | Reconnect

  datatype StreamEvent =
    | Disconnected
    | Reconnected
    | Blocked(seqNo: nat)
    | Dropped(seqNo: nat)
    | Enqueued(seqNo: nat)
    | Duplicated(seqNo: nat)
    | Delayed(seqNo: nat, after: nat)
    | Delivered(source: nat, target: nat, seqNo: nat)

  datatype Wire = Wire(source: nat, target: nat, nextSend: nat, nextDeliver: nat, connected: bool,
                       buffered: map<nat, Frame>, deliveredOnce: set<nat>,
                       events: seq<StreamEvent>, delivered: seq<Frame>)

  function Open(source: nat, target: nat): Wire {
    Wire(source, target, 0, 0, true, map[], {}, [], [])
  }

  // ----- one send, one drain -----

  function DelayOf(faults: seq<StreamFault>, s: nat): Option<nat> {
    if faults == [] then None
    else if faults[0].Delay? && faults[0].seqNo == s then Some(faults[0].after)
    else DelayOf(faults[1..], s)
  }

  function Link(w: Wire, faults: seq<StreamFault>): Wire {
    var w1 := if Disconnect in faults then w.(connected := false, events := w.events + [Disconnected]) else w;
    if Reconnect in faults then w1.(connected := true, events := w1.events + [Reconnected]) else w1
  }

  function Enqueue(w: Wire, frame: Frame, faults: seq<StreamFault>): Wire {
    var w1 := w.(buffered := w.buffered[frame.seqNo := frame], events := w.events + [Enqueued(frame.seqNo)]);
    if Duplicate(frame.seqNo) in faults then w1.(events := w1.events + [Duplicated(frame.seqNo)]) else w1
  }

  // Drain at once, unless the new frame is delayed behind one not delivered yet.
  function Settle(w: Wire, s: nat, faults: seq<StreamFault>): Wire {
    match DelayOf(faults, s)
    case None => Drain(w)
    case Some(after) =>
      var w1 := w.(events := w.events + [Delayed(s, after)]);
      if w1.nextDeliver <= after then w1 else Drain(w1)
  }

  function AfterSend(w: Wire, bytes: seq<byte>, faults: seq<StreamFault>): Wire {
    var frame := Frame(w.nextSend, bytes);
    var w1 := Link(w.(nextSend := w.nextSend + 1), faults);
    if !w1.connected then w1.(events := w1.events + [Blocked(frame.seqNo)])
    else if Drop(frame.seqNo) in faults then w1.(events := w1.events + [Dropped(frame.seqNo)])
    else Settle(Enqueue(w1, frame, faults), frame.seqNo, faults)
  }

  function DeliverNext(w: Wire): Wire
    requires w.nextDeliver in w.buffered
  {
    var frame := w.buffered[w.nextDeliver];
    var w1 := w.(buffered := w.buffered - {w.nextDeliver}, nextDeliver := w.nextDeliver + 1);
    if frame.seqNo in w.deliveredOnce then w1
    else w1.(deliveredOnce := w.deliveredOnce + {frame.seqNo},
             events := w.events + [Delivered(w.source, w.target, frame.seqNo)],
             delivered := w.delivered + [frame])
  }

  function Drain(w: Wire): Wire
    decreases |w.buffered|
  {
    if w.nextDeliver !in w.buffered then w
    else
      assert (w.buffered - {w.nextDeliver}).Keys == w.buffered.Keys - {w.nextDeliver};
      Drain(DeliverNext(w))
  }

  lemma InsertTwice(buffered: map<nat, Frame>, frame: Frame)
    ensures buffered[frame.seqNo := frame][frame.seqNo := frame] == buffered[frame.seqNo := frame]
  {
  }

  // ----- the stream in place -----

  class DeterministicStream {
    const source: nat
    const target: nat
    var nextSend: nat
    var nextDeliver: nat
    var connected: bool
    var buffered: map<nat, Frame>
    var deliveredOnce: set<nat>
    var events: seq<StreamEvent>
    var delivered: seq<Frame>

    ghost function State(): Wire
      reads this
    {
      Wire(source, target, nextSend, nextDeliver, connected, buffered, deliveredOnce, events, delivered)
    }

    constructor (source: nat, target: nat)
      ensures State() == Open(source, target)
    {
      this.source, this.target := source, target;
      nextSend, nextDeliver, connected := 0, 0, true;
      buffered, deliveredOnce, events, delivered := map[], {}, [], [];
    }

    method Send(bytes: seq<byte>, faults: seq<StreamFault>)
      modifies this
      ensures State() == AfterSend(old(State()), bytes, faults)
    {
      var frame := Frame(nextSend, bytes);
      nextSend := nextSend + 1;
      SetLink(faults);
      if !connected {
        events := events + [Blocked(frame.seqNo)];
        return;
      }
      if Drop(frame.seqNo) in faults {
        events := events + [Dropped(frame.seqNo)];
        return;
      }
      Buffer(frame, faults);
      DeliverOrHold(frame.seqNo, faults);
    }

    method SetLink(faults: seq<StreamFault>)
      modifies `connected, `events
      ensures State() == Link(old(State()), faults)
    {
      if Disconnect in faults {
        connected := false;
        events := events + [Disconnected];
      }
      if Reconnect in faults {
        connected := true;
        events := events + [Reconnected];
      }
    }

    method Buffer(frame: Frame, faults: seq<StreamFault>)
      modifies `buffered, `events
      ensures State() == Enqueue(old(State()), frame, faults)
    {
      InsertTwice(buffered, frame);
      buffered := buffered[frame.seqNo := frame];
      events := events + [Enqueued(frame.seqNo)];
      if Duplicate(frame.seqNo) in faults {
        buffered := buffered[frame.seqNo := frame];
        events := events + [Duplicated(frame.seqNo)];
      }
    }

    // The end of `Send`: deliver what is due, unless the new frame is held back.
    method DeliverOrHold(s: nat, faults: seq<StreamFault>)
      modifies this
      ensures State() == Settle(old(State()), s, faults)
    {
      var delayedAfter := DelayOf(faults, s);
      if delayedAfter.Some? {
        events := events + [Delayed(s, delayedAfter.value)];
        if nextDeliver <= delayedAfter.value {
          return;
        }
      }
      DrainOrdered();
    }

    method DrainOrdered()
      modifies this
      ensures State() == Drain(old(State()))
    {
      while nextDeliver in buffered
        invariant Drain(State()) == Drain(old(State()))
        decreases |buffered|
      {
        var frame := buffered[nextDeliver];
        assert (buffered - {nextDeliver}).Keys == buffered.Keys - {nextDeliver};
        buffered := buffered - {nextDeliver};
        if frame.seqNo !in deliveredOnce {
          deliveredOnce := deliveredOnce + {frame.seqNo};
          events := events + [Delivered(source, target, frame.seqNo)];
          delivered := delivered + [frame];
        }
        nextDeliver := nextDeliver + 1;
      }
    }

    method IntoTranscript() returns (frames: seq<Frame>)
      modifies this
      ensures State() == Drain(old(State())) && frames == delivered
    {
      DrainOrdered();
      frames := delivered;
    }
  }

  // ----- what gets through -----

  datatype Sent = Sent(bytes: seq<byte>, faults: seq<StreamFault>)

  function Run(w: Wire, sends: seq<Sent>): Wire {
    if sends == [] then w
    else AfterSend(Run(w, sends[..|sends|-1]), sends[|sends|-1].bytes, sends[|sends|-1].faults)
  }

  // The link is up while send k is made: the latest send up to k to change it
  // asked for a reconnect, or none did.
  predicate LinkUp(sends: seq<Sent>, k: nat)
    requires k < |sends|
  {
    if Reconnect in sends[k].faults then true
    else if Disconnect in sends[k].faults then false
    else k == 0 || LinkUp(sends, k - 1)
  }

  predicate GetsThrough(sends: seq<Sent>, k: nat)
    requires k < |sends|
  {
    LinkUp(sends, k) && Drop(k) !in sends[k].faults
  }

  ghost predicate AreFrames(sends: seq<Sent>, frames: seq<Frame>) {
    && |frames| <= |sends|
    && forall k :: 0 <= k < |frames| ==> GetsThrough(sends, k) && frames[k] == Frame(k, sends[k].bytes)
  }

  // The longest prefix of the sent frames that holds no blocked or dropped one.
  ghost predicate IsLongestPrefix(sends: seq<Sent>, frames: seq<Frame>) {
    AreFrames(sends, frames) && (|frames| < |sends| ==> !GetsThrough(sends, |frames|))
  }

  ghost predicate BufferOk(w: Wire, sends: seq<Sent>) {
    forall k: nat :: k in w.buffered <==> w.nextDeliver <= k < |sends| && GetsThrough(sends, k)
  }

  ghost predicate Tracks(w: Wire, sends: seq<Sent>) {
    && w.nextSend == |sends|
    && (w.connected <==> sends == [] || LinkUp(sends, |sends| - 1))
    && BufferOk(w, sends)
    && (forall k :: k in w.buffered ==> w.buffered[k] == Frame(k, sends[k].bytes))
    && (forall s: nat :: s in w.deliveredOnce <==> s < w.nextDeliver)
    && |w.delivered| == w.nextDeliver && AreFrames(sends, w.delivered)
  }

  lemma {:induction false} LinkUpPrefix(sends: seq<Sent>, more: Sent, k: nat)
    requires k < |sends|
    ensures LinkUp(sends + [more], k) == LinkUp(sends, k)
  {
    if k > 0 {
      LinkUpPrefix(sends, more, k - 1);
    }
  }

  lemma DeliverNextTracks(w: Wire, sends: seq<Sent>)
    requires Tracks(w, sends) && w.nextDeliver in w.buffered
    ensures Tracks(DeliverNext(w), sends)
  {
    var w' := DeliverNext(w);
    assert w'.buffered == w.buffered - {w.nextDeliver} && w'.nextDeliver == w.nextDeliver + 1;
    assert w.buffered[w.nextDeliver] == Frame(w.nextDeliver, sends[w.nextDeliver].bytes);
    assert w.nextDeliver !in w.deliveredOnce;
    assert BufferOk(w', sends);
    assert AreFrames(sends, w'.delivered);
  }

  lemma {:induction false} DrainTracks(w: Wire, sends: seq<Sent>)
    requires Tracks(w, sends)
    ensures Tracks(Drain(w), sends) && Drain(w).nextDeliver !in Drain(w).buffered
    decreases |w.buffered|
  {
    if w.nextDeliver in w.buffered {
      assert (w.buffered - {w.nextDeliver}).Keys == w.buffered.Keys - {w.nextDeliver};
      DeliverNextTracks(w, sends);
      DrainTracks(DeliverNext(w), sends);
    }
  }

  lemma AreFramesExtends(sends: seq<Sent>, more: Sent, frames: seq<Frame>)
    requires AreFrames(sends, frames)
    ensures AreFrames(sends + [more], frames)
  {
    forall k | 0 <= k < |frames| ensures GetsThrough(sends + [more], k) {
      LinkUpPrefix(sends, more, k);
    }
  }

  // A frame that never got through changes the numbering, not the buffer.
  lemma LostTracks(w: Wire, w': Wire, sends: seq<Sent>, more: Sent)
    requires Tracks(w, sends) && !GetsThrough(sends + [more], |sends|)
    requires w'.nextSend == |sends| + 1 && (w'.connected <==> LinkUp(sends + [more], |sends|))
    requires w'.buffered == w.buffered && w'.deliveredOnce == w.deliveredOnce
    requires w'.nextDeliver == w.nextDeliver && w'.delivered == w.delivered
    ensures Tracks(w', sends + [more])
  {
    AreFramesExtends(sends, more, w.delivered);
    forall k | 0 <= k < |sends| ensures GetsThrough(sends + [more], k) == GetsThrough(sends, k) {
      LinkUpPrefix(sends, more, k);
    }
    assert BufferOk(w', sends + [more]);
  }

  // One that did is buffered under its number.
  lemma KeptTracks(w: Wire, w': Wire, sends: seq<Sent>, more: Sent)
    requires Tracks(w, sends) && GetsThrough(sends + [more], |sends|)
    requires w'.nextSend == |sends| + 1 && w'.connected
    requires w'.buffered == w.buffered[|sends| := Frame(|sends|, more.bytes)] && w'.deliveredOnce == w.deliveredOnce
    requires w'.nextDeliver == w.nextDeliver && w'.delivered == w.delivered
    ensures Tracks(w', sends + [more])
  {
    AreFramesExtends(sends, more, w.delivered);
    forall k | 0 <= k < |sends| ensures GetsThrough(sends + [more], k) == GetsThrough(sends, k) {
      LinkUpPrefix(sends, more, k);
    }
    assert BufferOk(w', sends + [more]);
  }

  lemma LinkSets(w: Wire, sends: seq<Sent>, more: Sent)
    requires w.connected <==> sends == [] || LinkUp(sends, |sends| - 1)
    ensures var w' := Link(w, more.faults);
            && (w'.connected <==> LinkUp(sends + [more], |sends|))
            && w' == w.(connected := w'.connected, events := w'.events)
  {
    if sends != [] {
      LinkUpPrefix(sends, more, |sends| - 1);
    }
  }

  lemma SettleTracks(w: Wire, sends: seq<Sent>, s: nat, faults: seq<StreamFault>)
    requires Tracks(w, sends)
    ensures Tracks(Settle(w, s, faults), sends)
  {
    match DelayOf(faults, s)
    case None => DrainTracks(w, sends);
    case Some(after) => DrainTracks(w.(events := w.events + [Delayed(s, after)]), sends);
  }

  lemma SendLost(w: Wire, sends: seq<Sent>, more: Sent)
    requires Tracks(w, sends) && !GetsThrough(sends + [more], |sends|)
    ensures Tracks(AfterSend(w, more.bytes, more.faults), sends + [more])
  {
    LinkSets(w.(nextSend := w.nextSend + 1), sends, more);
    LostTracks(w, AfterSend(w, more.bytes, more.faults), sends, more);
  }

  lemma SendKept(w: Wire, sends: seq<Sent>, more: Sent)
    requires Tracks(w, sends) && GetsThrough(sends + [more], |sends|)
    ensures var linked := Link(w.(nextSend := w.nextSend + 1), more.faults);
            var w2 := Enqueue(linked, Frame(|sends|, more.bytes), more.faults);
            && Tracks(w2, sends + [more])
            && AfterSend(w, more.bytes, more.faults) == Settle(w2, |sends|, more.faults)
  {
    LinkSets(w.(nextSend := w.nextSend + 1), sends, more);
    var w2 := Enqueue(Link(w.(nextSend := w.nextSend + 1), more.faults), Frame(|sends|, more.bytes), more.faults);
    KeptTracks(w, w2, sends, more);
  }

  lemma SendTracks(w: Wire, sends: seq<Sent>, more: Sent)
    requires Tracks(w, sends)
    ensures Tracks(AfterSend(w, more.bytes, more.faults), sends + [more])
  {
    if GetsThrough(sends + [more], |sends|) {
      SendKept(w, sends, more);
      SettleTracks(Enqueue(Link(w.(nextSend := w.nextSend + 1), more.faults), Frame(|sends|, more.bytes), more.faults),
                   sends + [more], |sends|, more.faults);
    } else {
      SendLost(w, sends, more);
    }
  }

  lemma {:induction false} RunTracks(source: nat, target: nat, sends: seq<Sent>)
    ensures Tracks(Run(Open(source, target), sends), sends)
    decreases |sends|
  {
    if sends != [] {
      var n := |sends| - 1;
      RunTracks(source, target, sends[..n]);
      SendTracks(Run(Open(source, target), sends[..n]), sends[..n], sends[n]);
      assert sends == sends[..n] + [sends[n]];
    }
  }

  // Whatever the faults, a run delivers the frames sent, in order and each once,
  // up to the first that never got through; before the final drain, no more
  // than that.
  lemma DeliveredIsLongestPrefix(source: nat, target: nat, sends: seq<Sent>)
    ensures IsLongestPrefix(sends, Drain(Run(Open(source, target), sends)).delivered)
    ensures AreFrames(sends, Run(Open(source, target), sends).delivered)
  {
    var w := Run(Open(source, target), sends);
    RunTracks(source, target, sends);
    DrainTracks(w, sends);
  }

  // ----- duplicates and delays do not show -----

  // The same send with its duplications and delays taken away.
  ghost predicate SameButTiming(a: Sent, b: Sent) {
    && a.bytes == b.bytes
    && forall f: StreamFault :: !f.Duplicate? && !f.Delay? ==> (f in a.faults <==> f in b.faults)
  }

  lemma {:induction false} SameGetThrough(a: seq<Sent>, b: seq<Sent>, k: nat)
    requires |a| == |b| && forall i :: 0 <= i < |a| ==> SameButTiming(a[i], b[i])
    requires k < |a|
    ensures LinkUp(a, k) == LinkUp(b, k) && GetsThrough(a, k) == GetsThrough(b, k)
  {
    assert SameButTiming(a[k], b[k]);
    if k > 0 {
      SameGetThrough(a, b, k - 1);
    }
  }

  lemma TimingFaultsInvisible(source: nat, target: nat, a: seq<Sent>, b: seq<Sent>)
    requires |a| == |b| && forall i :: 0 <= i < |a| ==> SameButTiming(a[i], b[i])
    ensures Drain(Run(Open(source, target), a)).delivered == Drain(Run(Open(source, target), b)).delivered
  {
    var frames := Drain(Run(Open(source, target), b)).delivered;
    DeliveredIsLongestPrefix(source, target, a);
    DeliveredIsLongestPrefix(source, target, b);
    forall k | 0 <= k < |a| ensures GetsThrough(a, k) == GetsThrough(b, k) && a[k].bytes == b[k].bytes {
      SameGetThrough(a, b, k);
      assert SameButTiming(a[k], b[k]);
    }
    assert IsLongestPrefix(a, frames);
  }
}
