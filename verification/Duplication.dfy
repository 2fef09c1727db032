// Exactly which duplications the correct protocols survive.
module Duplication {
  import opened Base
  import opened Protocols
  import opened Quorum
  import opened ClientReads
  import opened Verdicts

  // Some run reaches c whose extra copies are all of the given kinds.
  ghost predicate Reachable(variant: Variant, c: Config, kinds: set<Kind>) {
    exists events :: IsRun(variant, Initial(), events) && After(variant, Initial(), events) == c
                     && Duplicates(events, kinds)
  }

  lemma {:induction false} Continue(variant: Variant, c: Config, events: seq<Event>, e: Event)
    requires IsRun(variant, c, events) && CanHappen(After(variant, c, events), e)
    ensures IsRun(variant, c, events + [e])
    ensures After(variant, c, events + [e]) == Step(variant, After(variant, c, events), e)
    decreases |events|
  {
    if events == [] {
      assert [] + [e] == [e] && [e][1..] == [];
    } else {
      assert (events + [e])[1..] == events[1..] + [e];
      Continue(variant, Step(variant, c, events[0]), events[1..], e);
    }
  }

  lemma Starts(variant: Variant, kinds: set<Kind>)
    ensures Reachable(variant, Initial(), kinds)
  {
    assert IsRun(variant, Initial(), []);
  }

  lemma Goes(variant: Variant, c: Config, e: Event, kinds: set<Kind>)
    requires Reachable(variant, c, kinds) && CanHappen(c, e)
    requires e.Duplicate? ==> KindOf(e.packet.msg) in kinds
    ensures Reachable(variant, Step(variant, c, e), kinds)
  {
    var events :| IsRun(variant, Initial(), events) && After(variant, Initial(), events) == c
                  && Duplicates(events, kinds);
    Continue(variant, Initial(), events, e);
    assert Duplicates(events + [e], kinds);
  }

  // ----- single events -----

  function GetPacket(variant: Variant): Packet {
    Packet(CLIENT, Reader(variant), Get)
  }

  // Everything but the packets in flight.
  function Nodes(c: Config): Config {
    c.(net := multiset{})
  }

  const BLANK: Follower := Follower(None, true)

  lemma Begins(variant: Variant, kinds: set<Kind>) returns (c: Config)
    requires WaitsForBoth(variant)
    ensures Reachable(variant, c, kinds) && c.net == multiset{PutPacket(variant)}
    ensures Nodes(c) == Config(multiset{}, Listening(None), BLANK, BLANK, AwaitingOk(0, 0), [], 0)
  {
    Starts(variant, kinds);
    Goes(variant, Initial(), Begin(0), kinds);
    c := Step(variant, Initial(), Begin(0));
    assert multiset{} + multiset{PutPacket(variant)} == multiset{PutPacket(variant)};
  }

  lemma Copied(variant: Variant, c: Config, m: Packet, kinds: set<Kind>) returns (c': Config)
    requires Reachable(variant, c, kinds) && m in c.net && KindOf(m.msg) in kinds
    ensures Reachable(variant, c', kinds) && Nodes(c') == Nodes(c) && c'.net == c.net + multiset{m}
  {
    Goes(variant, c, Duplicate(m), kinds);
    c' := Step(variant, c, Duplicate(m));
  }

  function Rest(c: Config, m: Packet): multiset<Packet> {
    c.net - multiset{m}
  }

  lemma Serves(variant: Variant, c: Config, kinds: set<Kind>) returns (c': Config)
    requires WaitsForBoth(variant) && Reachable(variant, c, kinds)
    requires PutPacket(variant) in c.net && c.primary.Listening?
    ensures Reachable(variant, c', kinds)
    ensures var rule := RuleFor(variant, Goal(variant)).value;
            Nodes(c') == Nodes(c).(primary := Gathering(CLIENT, Goal(variant), [], rule))
    ensures c'.net == Rest(c, PutPacket(variant)) + multiset([Request(1, Goal(variant)), Request(2, Goal(variant))])
  {
    var e := Receive(PutPacket(variant), c.clock);
    Goes(variant, c, e, kinds);
    c' := Step(variant, c, e);
    CopiesToBoth(Goal(variant));
  }

  lemma Applies(variant: Variant, c: Config, i: nat, kinds: set<Kind>) returns (c': Config)
    requires Reachable(variant, c, kinds) && i in {1, 2}
    requires Request(i, Goal(variant)) in c.net && FollowerAt(c, i).serving
    ensures Reachable(variant, c', kinds)
    ensures Nodes(c') == Nodes(WithFollower(c, i, Follower(Some(Goal(variant)), true)))
    ensures c'.net == Rest(c, Request(i, Goal(variant))) + multiset([Answer(i)])
  {
    var e := Receive(Request(i, Goal(variant)), c.clock);
    Goes(variant, c, e, kinds);
    c' := Step(variant, c, e);
  }

  lemma CountsFirst(variant: Variant, c: Config, i: nat, kinds: set<Kind>) returns (c': Config)
    requires Reachable(variant, c, kinds) && Answer(i) in c.net
    requires c.primary.Gathering? && c.primary.acked == [] && c.primary.rule.needed == 2
    ensures Reachable(variant, c', kinds)
    ensures Nodes(c') == Nodes(c).(primary := c.primary.(acked := [i])) && c'.net == Rest(c, Answer(i))
  {
    var e := Receive(Answer(i), c.clock);
    Goes(variant, c, e, kinds);
    c' := Step(variant, c, e);
    FirstAckCounted(c.(net := Rest(c, Answer(i))), variant, i);
  }

  function Served(variant: Variant): Primary {
    if variant == MiniRaft then Listening(Some(Goal(variant))) else Stopped
  }

  lemma CountsSecond(variant: Variant, c: Config, i: nat, kinds: set<Kind>) returns (c': Config)
    requires WaitsForBoth(variant) && Reachable(variant, c, kinds) && Answer(i) in c.net
    requires c.primary.Gathering? && |c.primary.acked| == 1 && c.primary.client == CLIENT
    requires c.primary.proposal == Goal(variant) && Some(c.primary.rule) == RuleFor(variant, Goal(variant))
    ensures Reachable(variant, c', kinds)
    ensures Nodes(c') == Nodes(c).(primary := Served(variant)) && c'.net == Rest(c, Answer(i)) + multiset([OK_PACKET])
  {
    var e := Receive(Answer(i), c.clock);
    Goes(variant, c, e, kinds);
    c' := Step(variant, c, e);
  }

  lemma Asks(variant: Variant, c: Config, t: nat, kinds: set<Kind>) returns (c': Config)
    requires WaitsForBoth(variant) && Reachable(variant, c, kinds) && OK_PACKET in c.net && t >= c.clock
    requires c.client.AwaitingOk? && c.client.putIndex == 0 && c.ops == []
    ensures Reachable(variant, c', kinds)
    ensures Nodes(c') == Nodes(c).(client := AwaitingValue(t), clock := t,
                                   ops := [DidPut(Goal(variant), c.client.invoke, t)])
    ensures c'.net == Rest(c, OK_PACKET) + multiset([GetPacket(variant)])
  {
    var e := Receive(OK_PACKET, t);
    Goes(variant, c, e, kinds);
    c' := Step(variant, c, e);
    OkMovesOn(variant, c, t);
  }

  lemma OkMovesOn(variant: Variant, c: Config, t: nat)
    requires c.client.AwaitingOk? && c.client.putIndex == 0 && c.ops == [] && WaitsForBoth(variant)
    ensures var c' := Step(variant, c, Receive(OK_PACKET, t));
            && c'.client == AwaitingValue(t) && c'.ops == [DidPut(Goal(variant), c.client.invoke, t)]
            && c'.net == Rest(c, OK_PACKET) + multiset([GetPacket(variant)])
            && c'.primary == c.primary && c'.one == c.one && c'.two == c.two && c'.clock == t
  {
  }

  // The reader answers the get.
  lemma Answers(variant: Variant, c: Config, kinds: set<Kind>) returns (c': Config, m: Packet)
    requires WaitsForBoth(variant) && Reachable(variant, c, kinds) && GetPacket(variant) in c.net
    requires if variant == MiniRaft then c.primary.Listening? else c.one.serving
    ensures Reachable(variant, c', kinds) && m in c'.net && m.target == CLIENT
    ensures m.msg == Found(if variant == MiniRaft then c.primary.value else c.one.value)
    ensures c'.client == c.client && c'.ops == c.ops && c'.clock == c.clock
  {
    var e := Receive(GetPacket(variant), c.clock);
    Goes(variant, c, e, kinds);
    c' := Step(variant, c, e);
    m := Packet(Reader(variant), CLIENT, Found(if variant == MiniRaft then c.primary.value else c.one.value));
  }

  // What the client records when a message answers its read.
  function Heard(variant: Variant, ops: seq<ClientOp>, found: Option<int>, invoke: nat, t: nat): seq<ClientOp> {
    if variant == MiniRaft && found.None? then STALE_HISTORY else ops + [DidGet(found, invoke, t)]
  }

  lemma Finishes(variant: Variant, c: Config, m: Packet, t: nat, kinds: set<Kind>) returns (c': Config)
    requires Reachable(variant, c, kinds) && m in c.net && m.target == CLIENT && t >= c.clock && c.client.AwaitingValue?
    ensures Reachable(variant, c', kinds) && c'.client.Finished?
    ensures c'.ops == Heard(variant, c.ops, if m.msg.Found? then m.msg.found else None, c.client.invoke, t)
  {
    Goes(variant, c, Receive(m, t), kinds);
    c' := Step(variant, c, Receive(m, t));
  }

  // ----- runs -----

  lemma Gathers(variant: Variant, kinds: set<Kind>) returns (c: Config)
    requires WaitsForBoth(variant)
    ensures Reachable(variant, c, kinds)
    ensures Nodes(c) == Config(multiset{}, Gathering(CLIENT, Goal(variant), [], RuleFor(variant, Goal(variant)).value),
                               BLANK, BLANK, AwaitingOk(0, 0), [], 0)
    ensures Request(1, Goal(variant)) in c.net && Request(2, Goal(variant)) in c.net
  {
    var c0 := Begins(variant, kinds);
    c := Serves(variant, c0, kinds);
  }

  // The second follower has answered twice, the first not at all.
  ghost predicate AnsweredTwice(variant: Variant, c: Config) {
    && c.net[Answer(2)] >= 2 && c.one == BLANK && c.client == AwaitingOk(0, 0) && c.ops == [] && c.clock == 0
    && c.primary == Gathering(CLIENT, Goal(variant), [], RuleFor(variant, Goal(variant)).value)
  }

  lemma RequestTwice(variant: Variant, kinds: set<Kind>) returns (c: Config)
    requires WaitsForBoth(variant) && ReplicateKind in kinds
    ensures Reachable(variant, c, kinds) && AnsweredTwice(variant, c)
  {
    var c0 := Gathers(variant, kinds);
    var c1 := Copied(variant, c0, Request(2, Goal(variant)), kinds);
    var c2 := Applies(variant, c1, 2, kinds);
    c := Applies(variant, c2, 2, kinds);
  }

  lemma AckTwice(variant: Variant, kinds: set<Kind>) returns (c: Config)
    requires WaitsForBoth(variant) && AckKind in kinds
    ensures Reachable(variant, c, kinds) && AnsweredTwice(variant, c)
  {
    var c0 := Gathers(variant, kinds);
    var c1 := Applies(variant, c0, 2, kinds);
    c := Copied(variant, c1, Answer(2), kinds);
  }

  // The primary takes the two answers of one follower for a quorum.
  lemma EarlyOk(variant: Variant, kinds: set<Kind>) returns (c: Config)
    requires WaitsForBoth(variant) && !(kinds !! SHARES)
    ensures Reachable(variant, c, kinds) && OK_PACKET in c.net
    ensures c.one == BLANK && c.client == AwaitingOk(0, 0) && c.ops == [] && c.clock == 0
  {
    var c0;
    if ReplicateKind in kinds {
      c0 := RequestTwice(variant, kinds);
    } else {
      assert AckKind in kinds;
      c0 := AckTwice(variant, kinds);
    }
    var c1 := CountsFirst(variant, c0, 2, kinds);
    c := CountsSecond(variant, c1, 2, kinds);
  }

  // Both followers apply the value and answer, and the put is answered.
  lemma Applied(variant: Variant, c: Config, kinds: set<Kind>) returns (c': Config)
    requires Reachable(variant, c, kinds) && c.one.serving && c.two.serving
    requires Request(1, Goal(variant)) in c.net && Request(2, Goal(variant)) in c.net
    ensures Reachable(variant, c', kinds) && Answer(1) in c'.net && Answer(2) in c'.net
    ensures var holding := Follower(Some(Goal(variant)), true);
            Nodes(c') == Nodes(c).(one := holding, two := holding)
    ensures c'.net[PutPacket(variant)] == c.net[PutPacket(variant)]
  {
    var c1 := Applies(variant, c, 1, kinds);
    c' := Applies(variant, c1, 2, kinds);
  }

  lemma Round(variant: Variant, c: Config, kinds: set<Kind>) returns (c': Config)
    requires WaitsForBoth(variant) && Reachable(variant, c, kinds) && c.one.serving && c.two.serving
    requires Request(1, Goal(variant)) in c.net && Request(2, Goal(variant)) in c.net
    requires c.primary == Gathering(CLIENT, Goal(variant), [], RuleFor(variant, Goal(variant)).value)
    ensures Reachable(variant, c', kinds) && OK_PACKET in c'.net
    ensures Nodes(c') == Nodes(c).(primary := Served(variant), one := Follower(Some(Goal(variant)), true),
                                   two := Follower(Some(Goal(variant)), true))
    ensures c'.net[PutPacket(variant)] == c.net[PutPacket(variant)]
  {
    var c1 := Applied(variant, c, kinds);
    var c2 := CountsFirst(variant, c1, 1, kinds);
    c' := CountsSecond(variant, c2, 2, kinds);
  }

  // ----- histories that are rejected -----

  ghost predicate Moved(ops: seq<ClientOp>) {
    ops != [] && ops[0].invoke < ops[|ops| - 1].complete
  }

  ghost predicate BadFinish(variant: Variant, c: Config, kinds: set<Kind>) {
    Reachable(variant, c, kinds) && c.client.Finished? && Moved(c.ops) && !Accepted(c.ops)
  }

  // A client that put at time 0 and heard at time 1 is told nothing at time 2.
  lemma HearsNothing(variant: Variant, c: Config, m: Packet, kinds: set<Kind>) returns (c': Config)
    requires WaitsForBoth(variant) && Reachable(variant, c, kinds) && m in c.net && m.target == CLIENT
    requires c.client == AwaitingValue(1) && c.ops == [DidPut(Goal(variant), 0, 1)] && c.clock == 1
    requires m.msg == Ok || m.msg == Found(None)
    ensures BadFinish(variant, c', kinds)
  {
    c' := Finishes(variant, c, m, 2, kinds);
    assert MissesLastPut(variant, c'.ops);
    StaleReadRejected(variant, c'.ops);
  }

  lemma ReadsTooEarly(kinds: set<Kind>) returns (c: Config)
    requires !(kinds !! SHARES)
    ensures BadFinish(Correct, c, kinds)
  {
    var c0 := EarlyOk(Correct, kinds);
    var c1 := Asks(Correct, c0, 1, kinds);
    var c2, m := Answers(Correct, c1, kinds);
    c := HearsNothing(Correct, c2, m, kinds);
  }

  lemma OkTwice(variant: Variant, kinds: set<Kind>) returns (c: Config)
    requires WaitsForBoth(variant) && OkKind in kinds
    ensures BadFinish(variant, c, kinds)
  {
    var c0 := Gathers(variant, kinds);
    var c1 := Round(variant, c0, kinds);
    var c2 := Copied(variant, c1, OK_PACKET, kinds);
    var c3 := Asks(variant, c2, 1, kinds);
    c := HearsNothing(variant, c3, OK_PACKET, kinds);
  }

  // The leader serves a second copy of the put and answers `ok` again.
  lemma PutTwice(kinds: set<Kind>) returns (c: Config)
    requires PutKind in kinds
    ensures BadFinish(MiniRaft, c, kinds)
  {
    var c0 := Begins(MiniRaft, kinds);
    var c1 := Copied(MiniRaft, c0, PutPacket(MiniRaft), kinds);
    var c2 := Serves(MiniRaft, c1, kinds);
    var c3 := Round(MiniRaft, c2, kinds);
    var c4 := Asks(MiniRaft, c3, 1, kinds);
    var c5 := Serves(MiniRaft, c4, kinds);
    var c6 := Round(MiniRaft, c5, kinds);
    c := HearsNothing(MiniRaft, c6, OK_PACKET, kinds);
  }

  // ----- the exact conditions -----

  ghost predicate AlwaysCommitted(variant: Variant, kinds: set<Kind>) {
    forall c :: Reachable(variant, c, kinds) && HasAnswered(c) ==> Committed(c, Goal(variant))
  }

  // An answered put is on both followers, in every run, exactly when the network
  // duplicates neither the requests to the followers nor their acknowledgements.
  lemma CommittedUnderDuplicationIff(variant: Variant, kinds: set<Kind>)
    requires WaitsForBoth(variant)
    ensures AlwaysCommitted(variant, kinds) <==> kinds !! SHARES
  {
    if kinds !! SHARES {
      forall c | Reachable(variant, c, kinds) && HasAnswered(c) ensures Committed(c, Goal(variant)) {
        var events :| IsRun(variant, Initial(), events) && After(variant, Initial(), events) == c
                      && Duplicates(events, kinds);
        QuorumSafety(variant, events, kinds);
      }
    } else {
      var c := EarlyOk(variant, kinds);
      assert HasAnswered(c) && !Committed(c, Goal(variant));
    }
  }

  lemma FinishedIsFresh(variant: Variant, c: Config, kinds: set<Kind>)
    requires WaitsForBoth(variant) && kinds !! Harmful(variant) && Reachable(variant, c, kinds) && c.client.Finished?
    ensures IsPutThenGet(c.ops, Goal(variant), c.clock) && (Accepted(c.ops) <==> Moved(c.ops))
  {
    var events :| IsRun(variant, Initial(), events) && After(variant, Initial(), events) == c
                  && Duplicates(events, kinds);
    FinishedReadIsFresh(variant, events, kinds);
    FreshReadAccepted(c.ops, Goal(variant), c.clock);
  }

  ghost predicate AlwaysAccepted(variant: Variant, kinds: set<Kind>) {
    forall c :: Reachable(variant, c, kinds) && c.client.Finished? && Moved(c.ops) ==> Accepted(c.ops)
  }

  // Every history that completes while the client's clock moves is accepted
  // exactly when no harmful kind is duplicated: for the primary-backup store the
  // requests, acknowledgements and `ok`s, for Mini-Raft the puts and the `ok`s.
  lemma AcceptedUnderDuplicationIff(variant: Variant, kinds: set<Kind>)
    requires WaitsForBoth(variant)
    ensures AlwaysAccepted(variant, kinds) <==> kinds !! Harmful(variant)
  {
    if kinds !! Harmful(variant) {
      forall c | Reachable(variant, c, kinds) && c.client.Finished? && Moved(c.ops) ensures Accepted(c.ops) {
        FinishedIsFresh(variant, c, kinds);
      }
    } else {
      var c := SomeBadFinish(variant, kinds);
    }
  }

  lemma SomeBadFinish(variant: Variant, kinds: set<Kind>) returns (c: Config)
    requires WaitsForBoth(variant) && !(kinds !! Harmful(variant))
    ensures BadFinish(variant, c, kinds)
  {
    var kind :| kind in kinds && kind in Harmful(variant);
    if kind == OkKind {
      c := OkTwice(variant, kinds);
    } else if variant == Correct {
      assert kind in SHARES;
      c := ReadsTooEarly(kinds);
    } else {
      c := PutTwice(kinds);
    }
  }

  // ----- a clock that stands still -----

  // A run with nothing lost, copied or late, in which every reading of the
  // client's clock is 0: it finishes, and its history is rejected.
  lemma StandingClockRejected(variant: Variant) returns (c: Config)
    requires WaitsForBoth(variant)
    ensures Reachable(variant, c, {}) && c.client.Finished?
    ensures c.ops == [DidPut(Goal(variant), 0, 0), DidGet(Some(Goal(variant)), 0, 0)]
    ensures !Accepted(c.ops)
  {
    var c0 := Gathers(variant, {});
    var c1 := Round(variant, c0, {});
    var c2 := Asks(variant, c1, 0, {});
    var c3, m := Answers(variant, c2, {});
    c := Finishes(variant, c3, m, 0, {});
    FinishedIsFresh(variant, c, {});
  }
}
