// What the linearizability checker's specification says about the histories the
// protocol clients record.
module Verdicts {
  import opened Base
  import opened SerialOrders
  import opened Precedence
  import opened Checker
  import opened Protocols
  import opened ClientReads
  import T = Timing

  // ----- histories whose operations follow one another -----

  function Invoke(op: ClientOp): nat { op.invoke }

  // Each operation starts once the one before it completed.
  ghost predicate BackToBack(ops: seq<ClientOp>) {
    && (forall k :: 0 <= k < |ops| ==> Invoke(ops[k]) <= ops[k].complete)
    && forall k :: 0 < k < |ops| ==> ops[k-1].complete <= Invoke(ops[k])
  }

  lemma {:induction false} EarlierPrecedes(ops: seq<ClientOp>, i: nat, j: nat)
    requires BackToBack(ops) && i < j < |ops|
    ensures Before(Spans(Recorded(ops)), i, j)
    decreases j
  {
    assert ops[j-1].complete <= Invoke(ops[j]);
    if i < j - 1 {
      EarlierPrecedes(ops, i, j - 1);
      assert Invoke(ops[j-1]) <= ops[j-1].complete;
    }
  }

  lemma {:induction false} IncreasingIsRange(path: seq<nat>, n: nat)
    requires StrictlyIncreasing(path) && |path| == n && forall k :: 0 <= k < n ==> path[k] < n
    ensures path == Range(n)
    decreases n
  {
    if n > 0 {
      var rest := path[..n-1];
      forall k | 0 <= k < n - 1 ensures rest[k] < n - 1 {
        assert path[k] < path[n-1];
      }
      IncreasingIsRange(rest, n - 1);
      assert n > 1 ==> path[n-2] == rest[n-2] == n - 2;
      assert path == rest + [path[n-1]];
    }
  }

  // The only order such a history leaves open is its own.
  lemma OnlyOneOrder(ops: seq<ClientOp>, path: seq<nat>)
    requires BackToBack(ops) && IsLinearization(M.SingleKeyKv(None), Recorded(ops), path)
    ensures path == Range(|ops|)
  {
    forall a, b | 0 <= a < b < |path| ensures path[a] < path[b] {
      if path[b] < path[a] {
        EarlierPrecedes(ops, path[b], path[a]);
      }
    }
    IncreasingIsRange(path, |ops|);
  }

  // ----- a put, then a get that finds it -----

  // Such a history is accepted unless both operations happen at one instant of
  // the client's clock, when they block each other.
  lemma FreshReadAccepted(ops: seq<ClientOp>, goal: int, clock: nat)
    requires IsPutThenGet(ops, goal, clock)
    ensures Accepted(ops) <==> ops[0].invoke < ops[1].complete
  {
    var records := Recorded(ops);
    var p := LinProblem(M.SingleKeyKv(None), records);
    if ops[0].invoke < ops[1].complete {
      var path: seq<nat> := [0, 1];
      assert path[1..] == [1] && path[1..][1..] == [];
      assert p.step(None, 0) == Some(Some(goal));
      assert p.step(Some(goal), 1) == Some(Some(goal));
      assert Replay(p, Some(goal), [1]).Some?;
      assert IsLinearization(M.SingleKeyKv(None), records, path);
    } else {
      var spans := Spans(records);
      assert T.BlockEachOther(spans, 0, 1);
      T.MutualBlockRejected(M.SingleKeyKv(None), records);
    }
  }

  // ----- puts, then a get that misses the last one -----

  function LastPut(variant: Variant): int {
    PutValue(variant, Puts(variant) - 1)
  }

  // The puts in order, back to back.
  ghost predicate ArePuts(variant: Variant, ops: seq<ClientOp>) {
    forall k :: 0 <= k < |ops| ==> ops[k].DidPut? && ops[k].value == PutValue(variant, k)
  }

  ghost predicate MissesLastPut(variant: Variant, ops: seq<ClientOp>) {
    && |ops| == Puts(variant) + 1
    && BackToBack(ops)
    && ArePuts(variant, ops[..|ops| - 1])
    && ops[|ops| - 1].DidGet?
    && ops[|ops| - 1].found != Some(LastPut(variant))
  }

  lemma {:induction false} ReplayRange<S>(p: Problem<S>, s: S, path: seq<nat>, rest: seq<nat>)
    ensures Replay(p, s, path + rest)
         == match Replay(p, s, path) case None => None case Some(t) => Replay(p, t, rest)
    decreases |path|
  {
    if path == [] {
      assert path + rest == rest;
    } else {
      assert (path + rest)[1..] == path[1..] + rest;
      if p.step(s, path[0]).Some? {
        ReplayRange(p, p.step(s, path[0]).value, path[1..], rest);
      }
    }
  }

  lemma StaleReadRejected(variant: Variant, ops: seq<ClientOp>)
    requires MissesLastPut(variant, ops)
    ensures !Accepted(ops)
  {
    var p := LinProblem(M.SingleKeyKv(None), Recorded(ops));
    var n: nat := |ops| - 1;
    ReplayRange(p, None, Range(n - 1), [n - 1, n]);
    assert Range(|ops|) == Range(n - 1) + [n - 1, n];
    assert ops[..n][n-1] == ops[n-1] && [n - 1, n][1..] == [n];
    assert p.step(Some(LastPut(variant)), n) == None;
    assert Replay(p, None, Range(|ops|)) == None;
    forall path | IsLinearization(M.SingleKeyKv(None), Recorded(ops), path) ensures false {
      OnlyOneOrder(ops, path);
    }
  }

  // ----- the variants that answer before follower 1 has the last put -----

  ghost predicate LeavesOneBehind(variant: Variant) {
    variant == ReadFromStaleFollower || variant == LostUpdate
  }

  // Until the client reads, nothing but `ok` is on its way to it.
  ghost predicate StalePacket(variant: Variant, client: Client, m: Packet) {
    && (m.target == CLIENT ==> m.msg == Ok || HasRead(client))
    && match m.msg
       case Put(v) => m.source == CLIENT && m.target == PRIMARY
       case Replicate(v) => m.source == PRIMARY && (m.target == 1 ==> v != LastPut(variant))
       case Ack => m.target == PRIMARY
       case Ok => true
       case Get => m.source == CLIENT && m.target == 1 && HasRead(client)
       case Found(x) => x != Some(LastPut(variant))
       case Stop => m.target in {1, 2}
  }

  ghost predicate StaleTraffic(variant: Variant, client: Client, net: multiset<Packet>) {
    forall m :: m in net ==> StalePacket(variant, client, m)
  }

  ghost predicate StaleSends(variant: Variant, client: Client, out: seq<Packet>) {
    forall k :: 0 <= k < |out| ==> StalePacket(variant, client, out[k])
  }

  ghost predicate StaleClient(variant: Variant, client: Client, ops: seq<ClientOp>, clock: nat) {
    match client
    case Idle => ops == []
    case AwaitingOk(k, invoke) =>
      && k == |ops| < Puts(variant) && ArePuts(variant, ops) && BackToBack(ops) && invoke <= clock
      && (ops != [] ==> ops[|ops|-1].complete == invoke)
    case AwaitingValue(invoke) =>
      && |ops| == Puts(variant) && ArePuts(variant, ops) && BackToBack(ops)
      && ops[|ops|-1].complete == invoke <= clock
    case Finished => MissesLastPut(variant, ops)
  }

  ghost predicate StaleInv(c: Config, variant: Variant) {
    && c.one.value != Some(LastPut(variant))
    && StaleTraffic(variant, c.client, c.net)
    && (c.primary.Gathering? ==> c.primary.client == CLIENT)
    && StaleClient(variant, c.client, c.ops, c.clock)
    && (c.client.Idle? ==> c.net == multiset{})
  }

  lemma MixStale(variant: Variant, client: Client, net: multiset<Packet>, out: seq<Packet>)
    requires StaleTraffic(variant, client, net) && StaleSends(variant, client, out)
    ensures StaleTraffic(variant, client, net + multiset(out))
  {
    forall m | m in net + multiset(out) ensures StalePacket(variant, client, m) {
      assert m in net || m in out;
    }
  }

  lemma PrimarySends(variant: Variant, p: Primary, client: Client, m: Packet)
    requires LeavesOneBehind(variant) && StalePacket(variant, client, m) && m.target == PRIMARY
    requires p.Gathering? ==> p.client == CLIENT
    ensures var (p', out) := PrimaryTurn(variant, p, m);
            StaleSends(variant, client, out) && (p'.Gathering? ==> p'.client == CLIENT)
  {
  }

  lemma FollowerSends(variant: Variant, f: Follower, client: Client, m: Packet)
    requires StalePacket(variant, client, m) && m.target in {1, 2}
    requires m.target == 1 ==> f.value != Some(LastPut(variant))
    ensures var (f', out) := FollowerTurn(f, m.target, m);
            StaleSends(variant, client, out) && (m.target == 1 ==> f'.value != Some(LastPut(variant)))
  {
  }

  lemma RecordPut(variant: Variant, ops: seq<ClientOp>, invoke: nat, t: nat)
    requires LeavesOneBehind(variant) && StaleClient(variant, AwaitingOk(|ops|, invoke), ops, t)
    ensures var ops' := ops + [DidPut(PutValue(variant, |ops|), invoke, t)];
            if |ops'| < Puts(variant) then StaleClient(variant, AwaitingOk(|ops'|, t), ops', t)
            else StaleClient(variant, AwaitingValue(t), ops', t)
  {
    var ops' := ops + [DidPut(PutValue(variant, |ops|), invoke, t)];
    assert forall k :: 0 <= k < |ops| ==> ops'[k] == ops[k];
    assert BackToBack(ops');
    assert ArePuts(variant, ops');
  }

  lemma RecordGet(variant: Variant, ops: seq<ClientOp>, found: Option<int>, invoke: nat, t: nat)
    requires LeavesOneBehind(variant) && StaleClient(variant, AwaitingValue(invoke), ops, t)
    requires found != Some(LastPut(variant))
    ensures MissesLastPut(variant, ops + [DidGet(found, invoke, t)])
  {
    var ops' := ops + [DidGet(found, invoke, t)];
    assert ops'[..|ops'| - 1] == ops;
    assert forall k :: 0 <= k < |ops| ==> ops'[k] == ops[k];
  }

  lemma ClientSends(variant: Variant, client: Client, ops: seq<ClientOp>, m: Packet, t: nat)
    requires LeavesOneBehind(variant) && StalePacket(variant, client, m) && m.target == CLIENT
    requires StaleClient(variant, client, ops, t)
    ensures var (client', ops', out) := ClientTurn(variant, client, ops, m.msg, t);
            && StaleSends(variant, client', out) && StaleClient(variant, client', ops', t)
            && (HasRead(client) ==> HasRead(client')) && (client'.Idle? ==> client.Idle? && out == [])
  {
    match client
    case AwaitingOk(k, invoke) => RecordPut(variant, ops, invoke, t);
    case AwaitingValue(invoke) =>
      RecordGet(variant, ops, if m.msg.Found? then m.msg.found else None, invoke, t);
    case _ =>
  }

  lemma PrimaryStale(c: Config, variant: Variant, m: Packet)
    requires LeavesOneBehind(variant) && StaleInv(c, variant) && StalePacket(variant, c.client, m)
    requires !c.client.Idle? && m.target == PRIMARY
    ensures StaleInv(StepPrimary(variant, c, m), variant)
  {
    PrimarySends(variant, c.primary, c.client, m);
    MixStale(variant, c.client, c.net, PrimaryTurn(variant, c.primary, m).1);
  }

  lemma FollowerStale(c: Config, variant: Variant, m: Packet)
    requires StaleInv(c, variant) && StalePacket(variant, c.client, m) && !c.client.Idle? && m.target in {1, 2}
    ensures StaleInv(StepFollower(c, m), variant)
  {
    var f := if m.target == 1 then c.one else c.two;
    FollowerSends(variant, f, c.client, m);
    MixStale(variant, c.client, c.net, FollowerTurn(f, m.target, m).1);
  }

  lemma ClientMoves(variant: Variant, client: Client, client': Client, net: multiset<Packet>, out: seq<Packet>)
    requires StaleTraffic(variant, client, net) && (HasRead(client) ==> HasRead(client'))
    requires StaleSends(variant, client', out)
    ensures StaleTraffic(variant, client', net + multiset(out))
  {
    assert forall m :: m in net ==> StalePacket(variant, client, m);
    MixStale(variant, client', net, out);
  }

  lemma ClientStale(c: Config, variant: Variant, m: Packet)
    requires LeavesOneBehind(variant) && StaleInv(c, variant) && StalePacket(variant, c.client, m)
    requires !c.client.Idle? && m.target == CLIENT
    ensures StaleInv(StepClient(variant, c, m.msg, c.clock), variant)
  {
    ClientSends(variant, c.client, c.ops, m, c.clock);
    var turn := ClientTurn(variant, c.client, c.ops, m.msg, c.clock);
    ClientMoves(variant, c.client, turn.0, c.net, turn.2);
  }

  // The network changes what is in flight, but invents nothing.
  lemma TrafficStale(c: Config, variant: Variant, net: multiset<Packet>, t: nat)
    requires StaleInv(c, variant) && t >= c.clock && forall x :: x in net ==> x in c.net
    ensures StaleInv(c.(net := net, clock := t), variant)
  {
    assert c.client.Idle? ==> net == multiset{};
  }

  lemma DeliverStale(c: Config, variant: Variant, m: Packet, t: nat)
    requires LeavesOneBehind(variant) && StaleInv(c, variant) && CanHappen(c, Receive(m, t))
    ensures StaleInv(Step(variant, c, Receive(m, t)), variant)
  {
    TrafficStale(c, variant, c.net - multiset{m}, t);
    var taken := c.(net := c.net - multiset{m}, clock := t);
    assert StalePacket(variant, c.client, m) && !c.client.Idle?;
    if m.target == PRIMARY { PrimaryStale(taken, variant, m); }
    else if m.target == CLIENT { ClientStale(taken, variant, m); }
    else if m.target in {1, 2} { FollowerStale(taken, variant, m); }
  }

  lemma StepStale(c: Config, variant: Variant, e: Event)
    requires LeavesOneBehind(variant) && StaleInv(c, variant) && CanHappen(c, e)
    ensures StaleInv(Step(variant, c, e), variant)
  {
    match e
    case Begin(t) => assert forall x :: x in c.net + multiset{Packet(CLIENT, PRIMARY, Put(PutValue(variant, 0)))} ==>
                       x == Packet(CLIENT, PRIMARY, Put(PutValue(variant, 0)));
    case Drop(m) => TrafficStale(c, variant, c.net - multiset{m}, c.clock);
    case Duplicate(m) => TrafficStale(c, variant, c.net + multiset{m}, c.clock);
    case Receive(m, t) => DeliverStale(c, variant, m, t);
  }

  lemma {:induction false} RunStale(c: Config, variant: Variant, events: seq<Event>)
    requires LeavesOneBehind(variant) && StaleInv(c, variant) && IsRun(variant, c, events)
    ensures StaleInv(After(variant, c, events), variant)
    decreases events
  {
    if events != [] {
      StepStale(c, variant, events[0]);
      RunStale(Step(variant, c, events[0]), variant, events[1..]);
    }
  }

  // However the network behaves, duplication included, a completed run of either
  // broken variant leaves a history the checker rejects.
  lemma BrokenRunsRejected(variant: Variant, events: seq<Event>)
    requires LeavesOneBehind(variant) && IsRun(variant, Initial(), events)
    requires After(variant, Initial(), events).client.Finished?
    ensures !Accepted(After(variant, Initial(), events).ops)
  {
    RunStale(Initial(), variant, events);
    StaleReadRejected(variant, After(variant, Initial(), events).ops);
  }
}
