// The run each protocol makes when the network loses and copies nothing: every
// variant finishes, and leaves behind what its rules say.
module CleanRuns {
  import opened Base
  import opened Protocols
  import D = Duplication

  // Some run without losses or extra copies reaches c.
  ghost predicate Clean(variant: Variant, c: Config) {
    exists events: seq<Event> :: && IsRun(variant, Initial(), events) && After(variant, Initial(), events) == c
                                    && forall e :: e in events ==> e.Begin? || e.Receive?
  }

  lemma Goes(variant: Variant, c: Config, e: Event)
    requires Clean(variant, c) && CanHappen(c, e) && (e.Begin? || e.Receive?)
    ensures Clean(variant, Step(variant, c, e))
  {
    var events: seq<Event> :| && IsRun(variant, Initial(), events) && After(variant, Initial(), events) == c
                               && forall e :: e in events ==> e.Begin? || e.Receive?;
    D.Continue(variant, Initial(), events, e);
  }

  // The client's first put is on its way.
  lemma Begun(variant: Variant, t: nat) returns (c: Config)
    ensures Clean(variant, c)
    ensures c == Config(multiset{Packet(3, 0, Put(if variant == MiniRaft then 1 else 7))}, Listening(None),
                        Follower(None, true), Follower(None, true), AwaitingOk(0, t), [], t)
  {
    assert IsRun(variant, Initial(), []);
    Goes(variant, Initial(), Begin(t));
    c := Step(variant, Initial(), Begin(t));
    assert multiset{} + c.net == c.net;
  }

  // A message arrives at the primary, and these go out.
  lemma AtPrimary(variant: Variant, c: Config, m: Packet, p: Primary, out: seq<Packet>) returns (c': Config)
    requires Clean(variant, c) && m in c.net && m.target == 0 && PrimaryTurn(variant, c.primary, m) == (p, out)
    ensures Clean(variant, c') && c' == c.(primary := p, net := c.net - multiset{m} + multiset(out))
  {
    Goes(variant, c, Receive(m, c.clock));
    c' := Step(variant, c, Receive(m, c.clock));
  }

  lemma AtFollower(variant: Variant, c: Config, m: Packet, f: Follower, out: seq<Packet>) returns (c': Config)
    requires Clean(variant, c) && m in c.net && m.target in {1, 2}
    requires FollowerTurn(if m.target == 1 then c.one else c.two, m.target, m) == (f, out)
    ensures Clean(variant, c')
    ensures c' == (if m.target == 1 then c.(one := f, net := c.net - multiset{m} + multiset(out))
                   else c.(two := f, net := c.net - multiset{m} + multiset(out)))
  {
    Goes(variant, c, Receive(m, c.clock));
    c' := Step(variant, c, Receive(m, c.clock));
  }

  lemma AtClient(variant: Variant, c: Config, m: Packet, t: nat, client: Client, ops: seq<ClientOp>, out: seq<Packet>)
    returns (c': Config)
    requires Clean(variant, c) && m in c.net && m.target == 3 && t >= c.clock
    requires ClientTurn(variant, c.client, c.ops, m.msg, t) == (client, ops, out)
    ensures Clean(variant, c')
    ensures c' == c.(client := client, ops := ops, clock := t, net := c.net - multiset{m} + multiset(out))
  {
    Goes(variant, c, Receive(m, t));
    c' := Step(variant, c, Receive(m, t));
  }

  // ----- one put -----

  // Both followers apply the value and acknowledge it.
  lemma BothApply(variant: Variant, c: Config, v: int) returns (c': Config)
    requires Clean(variant, c) && c.one.serving && c.two.serving
    requires c.net == multiset{Packet(0, 1, Replicate(v)), Packet(0, 2, Replicate(v))}
    ensures Clean(variant, c')
    ensures c' == c.(one := Follower(Some(v), true), two := Follower(Some(v), true),
                     net := multiset{Packet(1, 0, Ack), Packet(2, 0, Ack)})
  {
    var c1 := AtFollower(variant, c, Packet(0, 1, Replicate(v)), Follower(Some(v), true), [Packet(1, 0, Ack)]);
    assert c1.net == multiset{Packet(0, 2, Replicate(v)), Packet(1, 0, Ack)};
    c' := AtFollower(variant, c1, Packet(0, 2, Replicate(v)), Follower(Some(v), true), [Packet(2, 0, Ack)]);
    assert c'.net == multiset{Packet(1, 0, Ack), Packet(2, 0, Ack)};
  }

  // The primary counts both acknowledgements and answers.
  lemma BothCounted(variant: Variant, c: Config, v: int, last: bool) returns (c': Config)
    requires Clean(variant, c) && c.primary == Gathering(3, v, [], Rule([1, 2], 2, last))
    requires c.net == multiset{Packet(1, 0, Ack), Packet(2, 0, Ack)}
    ensures Clean(variant, c')
    ensures c' == c.(primary := if last then Stopped else Listening(Some(v)), net := multiset{Packet(0, 3, Ok)})
  {
    assert [] + [1] == [1];
    var c1 := AtPrimary(variant, c, Packet(1, 0, Ack), Gathering(3, v, [1], Rule([1, 2], 2, last)), []);
    assert c1.net == multiset{Packet(2, 0, Ack)};
    c' := AtPrimary(variant, c1, Packet(2, 0, Ack), if last then Stopped else Listening(Some(v)), [Packet(0, 3, Ok)]);
    assert c'.net == multiset{Packet(0, 3, Ok)};
  }

  // A put that is replicated to both followers and answered once both have
  // acknowledged it.
  lemma PutToBoth(variant: Variant, c: Config, v: int, last: bool) returns (c': Config)
    requires Clean(variant, c) && c.primary.Listening? && c.one.serving && c.two.serving
    requires c.net == multiset{Packet(3, 0, Put(v))}
    requires RuleFor(variant, v) == Some(Rule([1, 2], 2, last))
    ensures Clean(variant, c')
    ensures c' == c.(primary := if last then Stopped else Listening(Some(v)), one := Follower(Some(v), true),
                     two := Follower(Some(v), true), net := multiset{Packet(0, 3, Ok)})
  {
    var a, b := Packet(0, 1, Replicate(v)), Packet(0, 2, Replicate(v));
    assert Copies([1, 2], v) == [a, b];
    var c1 := AtPrimary(variant, c, Packet(3, 0, Put(v)), Gathering(3, v, [], Rule([1, 2], 2, last)), [a, b]);
    assert c1.net == multiset{a, b};
    var c2 := BothApply(variant, c1, v);
    c' := BothCounted(variant, c2, v, last);
  }

  // A put that is replicated to one follower and answered on its word alone.
  lemma PutToOne(variant: Variant, c: Config, v: int, i: nat, last: bool) returns (c': Config)
    requires Clean(variant, c) && c.primary.Listening? && i in {1, 2} && (if i == 1 then c.one else c.two).serving
    requires c.net == multiset{Packet(3, 0, Put(v))} && RuleFor(variant, v) == Some(Rule([i], 1, last))
    ensures Clean(variant, c')
    ensures var told := if i == 1 then c.(one := Follower(Some(v), true)) else c.(two := Follower(Some(v), true));
            c' == told.(primary := if last then Stopped else Listening(Some(v)), net := multiset{Packet(0, 3, Ok)})
  {
    var a := Packet(0, i, Replicate(v));
    assert Copies([i], v) == [a];
    var c1 := AtPrimary(variant, c, Packet(3, 0, Put(v)), Gathering(3, v, [], Rule([i], 1, last)), [a]);
    assert c1.net == multiset{a};
    var c2 := AtFollower(variant, c1, a, Follower(Some(v), true), [Packet(i, 0, Ack)]);
    assert c2.net == multiset{Packet(i, 0, Ack)};
    c' := AtPrimary(variant, c2, Packet(i, 0, Ack), if last then Stopped else Listening(Some(v)), [Packet(0, 3, Ok)]);
    assert c'.net == multiset{Packet(0, 3, Ok)};
  }

  // ----- the read, and the end -----

  // The last put is answered; the client reads from follower 1, records what it is
  // told, and stops both followers.
  lemma ReadFromFollower(variant: Variant, c: Config, k: nat, v: int, t: nat, t': nat) returns (c': Config)
    requires variant != MiniRaft && Clean(variant, c) && c.net == multiset{Packet(0, 3, Ok)}
    requires c.client.AwaitingOk? && c.client.putIndex == k && k + 1 == Puts(variant) && v == PutValue(variant, k)
    requires c.one.serving && c.two.serving && c.clock <= t <= t'
    ensures Clean(variant, c')
    ensures c' == c.(one := c.one.(serving := false), two := c.two.(serving := false), client := Finished, clock := t',
                     ops := c.ops + [DidPut(v, c.client.invoke, t), DidGet(c.one.value, t, t')], net := multiset{})
  {
    var get, told := Packet(3, 1, Get), Packet(1, 3, Found(c.one.value));
    var stop1, stop2 := Packet(3, 1, Stop), Packet(3, 2, Stop);
    var ops1 := c.ops + [DidPut(v, c.client.invoke, t)];
    var c1 := AtClient(variant, c, Packet(0, 3, Ok), t, AwaitingValue(t), ops1, [get]);
    assert c1.net == multiset{get};
    var c2 := AtFollower(variant, c1, get, c.one.(serving := false), [told]);
    assert c2.net == multiset{told};
    var c3 := AtClient(variant, c2, told, t', Finished, ops1 + [DidGet(c.one.value, t, t')], [stop1, stop2]);
    assert c3.net == multiset{stop1, stop2};
    var c4 := AtFollower(variant, c3, stop1, c.one.(serving := false), []);
    assert c4.net == multiset{stop2};
    c' := AtFollower(variant, c4, stop2, c.two.(serving := false), []);
    assert c'.net == multiset{};
  }

  // Both followers are told to stop while something else is on its way.
  lemma BothStop(variant: Variant, c: Config, source: nat, others: seq<Packet>) returns (c': Config)
    requires Clean(variant, c) && c.one.serving && c.two.serving
    requires c.net == multiset(others) + multiset{Packet(source, 1, Stop), Packet(source, 2, Stop)}
    ensures Clean(variant, c')
    ensures c' == c.(one := c.one.(serving := false), two := c.two.(serving := false), net := multiset(others))
  {
    var c1 := AtFollower(variant, c, Packet(source, 1, Stop), c.one.(serving := false), []);
    assert c1.net == multiset(others) + multiset{Packet(source, 2, Stop)};
    c' := AtFollower(variant, c1, Packet(source, 2, Stop), c.two.(serving := false), []);
    assert c'.net == multiset(others);
  }

  // Mini-Raft's client reads from the leader, which stops its followers itself.
  lemma ReadFromLeader(c: Config, t: nat, t': nat) returns (c': Config)
    requires Clean(MiniRaft, c) && c.net == multiset{Packet(0, 3, Ok)} && c.primary.Listening?
    requires c.primary.value.Some? && c.client.AwaitingOk? && c.client.putIndex == 0
    requires c.one.serving && c.two.serving && c.clock <= t <= t'
    ensures Clean(MiniRaft, c')
    ensures c' == c.(primary := Stopped, one := c.one.(serving := false), two := c.two.(serving := false),
                     client := Finished, clock := t', net := multiset{},
                     ops := c.ops + [DidPut(1, c.client.invoke, t), DidGet(c.primary.value, t, t')])
  {
    var get, told := Packet(3, 0, Get), Packet(0, 3, Found(c.primary.value));
    var ops1 := c.ops + [DidPut(1, c.client.invoke, t)];
    var c1 := AtClient(MiniRaft, c, Packet(0, 3, Ok), t, AwaitingValue(t), ops1, [get]);
    assert c1.net == multiset{get};
    var c2 := AtPrimary(MiniRaft, c1, get, Stopped, [told, Packet(0, 1, Stop), Packet(0, 2, Stop)]);
    assert c2.net == multiset([told]) + multiset{Packet(0, 1, Stop), Packet(0, 2, Stop)};
    var c3 := BothStop(MiniRaft, c2, 0, [told]);
    c' := AtClient(MiniRaft, c3, told, t', Finished, ops1 + [DidGet(c.primary.value, t, t')], []);
    assert c'.net == multiset{};
  }

  // ----- the runs -----

  // The correct store: the value is on both followers, and the client reads it.
  lemma CorrectRun(t0: nat, t1: nat, t2: nat) returns (c: Config)
    requires t0 <= t1 <= t2
    ensures Clean(Correct, c)
    ensures c == Config(multiset{}, Stopped, Follower(Some(7), false), Follower(Some(7), false), Finished,
                        [DidPut(7, t0, t1), DidGet(Some(7), t1, t2)], t2)
  {
    var c0 := Begun(Correct, t0);
    var c1 := PutToBoth(Correct, c0, 7, true);
    c := ReadFromFollower(Correct, c1, 0, 7, t1, t2);
  }

  // Mini-Raft: the same through the leader.
  lemma MiniRaftRun(t0: nat, t1: nat, t2: nat) returns (c: Config)
    requires t0 <= t1 <= t2
    ensures Clean(MiniRaft, c)
    ensures c == Config(multiset{}, Stopped, Follower(Some(1), false), Follower(Some(1), false), Finished,
                        [DidPut(1, t0, t1), DidGet(Some(1), t1, t2)], t2)
  {
    var c0 := Begun(MiniRaft, t0);
    var c1 := PutToBoth(MiniRaft, c0, 1, false);
    c := ReadFromLeader(c1, t1, t2);
  }

  // The store that reads from a stale follower: the put went to the other one, and
  // the read finds nothing.
  lemma StaleRun(t0: nat, t1: nat, t2: nat) returns (c: Config)
    requires t0 <= t1 <= t2
    ensures Clean(ReadFromStaleFollower, c)
    ensures c == Config(multiset{}, Stopped, Follower(None, false), Follower(Some(7), false), Finished,
                        [DidPut(7, t0, t1), DidGet(None, t1, t2)], t2)
  {
    var c0 := Begun(ReadFromStaleFollower, t0);
    var c1 := PutToOne(ReadFromStaleFollower, c0, 7, 2, true);
    c := ReadFromFollower(ReadFromStaleFollower, c1, 0, 7, t1, t2);
  }

  // The store that loses an update: each put went to one follower, and the read
  // finds the first.
  lemma LostUpdateRun(t0: nat, t1: nat, t2: nat, t3: nat) returns (c: Config)
    requires t0 <= t1 <= t2 <= t3
    ensures Clean(LostUpdate, c)
    ensures c == Config(multiset{}, Stopped, Follower(Some(7), false), Follower(Some(9), false), Finished,
                        [DidPut(7, t0, t1), DidPut(9, t1, t2), DidGet(Some(7), t2, t3)], t3)
  {
    var c0 := Begun(LostUpdate, t0);
    var c1 := PutToOne(LostUpdate, c0, 7, 1, false);
    assert c1.ops + [DidPut(7, t0, t1)] == [DidPut(7, t0, t1)];
    var c2 := AtClient(LostUpdate, c1, Packet(0, 3, Ok), t1, AwaitingOk(1, t1), [DidPut(7, t0, t1)],
                       [Packet(3, 0, Put(9))]);
    assert c2.net == multiset{Packet(3, 0, Put(9))};
    var c3 := PutToOne(LostUpdate, c2, 9, 2, true);
    c := ReadFromFollower(LostUpdate, c3, 1, 9, t2, t3);
  }
}
