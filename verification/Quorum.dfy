// When an `ok` means that both followers applied the value: an invariant of the
// variants that wait for two acknowledgements, over a network that may duplicate
// anything but the requests to the followers and their acknowledgements.
module Quorum {
  import opened Base
  import opened Protocols

  ghost predicate WaitsForBoth(variant: Variant) {
    variant == Correct || variant == MiniRaft
  }

  function Goal(variant: Variant): int {
    PutValue(variant, 0)
  }

  function FollowerAt(c: Config, i: nat): Follower {
    if i == 1 then c.one else c.two
  }

  ghost predicate Committed(c: Config, goal: int) {
    c.one.value == Some(goal) == c.two.value
  }

  // Nothing has been replicated yet.
  ghost predicate Untouched(p: Primary) {
    p.Listening? && p.value.None?
  }

  // ----- who has what -----

  function Request(i: nat, goal: int): Packet {
    Packet(PRIMARY, i, Replicate(goal))
  }

  function Answer(i: nat): Packet {
    Packet(i, PRIMARY, Ack)
  }

  function AckedBy(p: Primary, i: nat): nat {
    if p.Gathering? then multiset(p.acked)[i] else 0
  }

  // A follower's share of the quorum is in one place at most: the request on its
  // way, the acknowledgement on its way back, or the acknowledgement counted.
  function Share(net: multiset<Packet>, p: Primary, goal: int, i: nat): nat {
    net[Request(i, goal)] + net[Answer(i)] + AckedBy(p, i)
  }

  ghost predicate FollowerOk(net: multiset<Packet>, p: Primary, f: Follower, goal: int, i: nat) {
    && Share(net, p, goal, i) <= (if Untouched(p) then 0 else 1)
    && (net[Answer(i)] + AckedBy(p, i) > 0 ==> f.value == Some(goal))
  }

  // Who sends what to whom.
  ghost predicate ShapeOk(variant: Variant, m: Packet) {
    match m.msg
    case Put(v) => m.source == CLIENT && m.target == PRIMARY && v == Goal(variant)
    case Replicate(v) => m.source == PRIMARY && m.target in {1, 2} && v == Goal(variant)
    case Ack => m.source in {1, 2} && m.target == PRIMARY
    case Ok => m.source == PRIMARY && m.target == CLIENT
    case Get => m.source == CLIENT && m.target == Reader(variant)
    case Found(_) => m.target == CLIENT
    case Stop => m.target in {1, 2}
  }

  ghost predicate ShapesOk(variant: Variant, net: multiset<Packet>) {
    forall m :: m in net ==> ShapeOk(variant, m)
  }

  ghost predicate PrimaryShape(variant: Variant, p: Primary) {
    match p
    case Listening(value) => value == None || value == Some(Goal(variant))
    case Gathering(id, v, acked, rule) =>
      && id == CLIENT && v == Goal(variant) && Some(rule) == RuleFor(variant, v)
      && |acked| < 2 && forall k :: 0 <= k < |acked| ==> acked[k] in {1, 2}
    case Stopped => true
  }

  // The first put is still being served: nothing but it, its requests and their
  // acknowledgements is in flight, and every share is accounted for.
  ghost predicate Serving(c: Config, goal: int) {
    && (Untouched(c.primary) || c.primary.Gathering?)
    && (c.client.Idle? || c.client.AwaitingOk?) && c.ops == []
    && (forall m :: m in c.net ==> m.msg.Put? || m.msg.Replicate? || m.msg.Ack?)
    && FollowerOk(c.net, c.primary, c.one, goal, 1)
    && FollowerOk(c.net, c.primary, c.two, goal, 2)
  }

  ghost predicate ShapesInv(c: Config, variant: Variant) {
    && ShapesOk(variant, c.net) && PrimaryShape(variant, c.primary)
    && c.one.value in {None, Some(Goal(variant))} && c.two.value in {None, Some(Goal(variant))}
  }

  ghost predicate CommitInv(c: Config, variant: Variant) {
    ShapesInv(c, variant) && (Committed(c, Goal(variant)) || Serving(c, Goal(variant)))
  }

  // ----- what is sent has the right shape, whatever is duplicated -----

  ghost predicate SendsShapes(variant: Variant, out: seq<Packet>) {
    forall k :: 0 <= k < |out| ==> ShapeOk(variant, out[k])
  }

  lemma PrimarySendsShapes(variant: Variant, p: Primary, m: Packet)
    requires WaitsForBoth(variant) && ShapeOk(variant, m) && PrimaryShape(variant, p) && m.target == PRIMARY
    ensures var (p', out) := PrimaryTurn(variant, p, m);
            SendsShapes(variant, out) && PrimaryShape(variant, p')
  {
  }

  lemma FollowerSendsShapes(variant: Variant, f: Follower, m: Packet)
    requires ShapeOk(variant, m) && m.target in {1, 2} && f.value in {None, Some(Goal(variant))}
    ensures var (f', out) := FollowerTurn(f, m.target, m);
            SendsShapes(variant, out) && f'.value in {None, Some(Goal(variant))}
            && (f.value.Some? ==> f'.value == f.value)
  {
  }

  lemma ClientSendsShapes(variant: Variant, client: Client, ops: seq<ClientOp>, msg: Msg, t: nat)
    requires WaitsForBoth(variant)
    ensures SendsShapes(variant, ClientTurn(variant, client, ops, msg, t).2)
  {
  }

  lemma MixShapes(variant: Variant, net: multiset<Packet>, out: seq<Packet>)
    requires ShapesOk(variant, net) && SendsShapes(variant, out)
    ensures ShapesOk(variant, net + multiset(out))
  {
    forall m | m in net + multiset(out) ensures ShapeOk(variant, m) {
      assert m in net || m in out;
    }
  }

  // Committed followers stay committed.
  lemma DeliverShapes(c: Config, variant: Variant, m: Packet)
    requires WaitsForBoth(variant) && ShapesInv(c, variant) && ShapeOk(variant, m)
    ensures var c' := React(variant, c, m);
            ShapesInv(c', variant) && (Committed(c, Goal(variant)) ==> Committed(c', Goal(variant)))
  {
    if m.target == PRIMARY {
      PrimarySendsShapes(variant, c.primary, m);
      MixShapes(variant, c.net, PrimaryTurn(variant, c.primary, m).1);
    } else if m.target in {1, 2} {
      FollowerSendsShapes(variant, FollowerAt(c, m.target), m);
      MixShapes(variant, c.net, FollowerTurn(FollowerAt(c, m.target), m.target, m).1);
    } else if m.target == CLIENT {
      ClientSendsShapes(variant, c.client, c.ops, m.msg, c.clock);
      MixShapes(variant, c.net, ClientTurn(variant, c.client, c.ops, m.msg, c.clock).2);
    }
  }

  // ----- serving the put -----

  lemma FewerShares(net: multiset<Packet>, net': multiset<Packet>, p: Primary, f: Follower, goal: int, i: nat)
    requires FollowerOk(net, p, f, goal, i)
    requires net'[Request(i, goal)] <= net[Request(i, goal)] && net'[Answer(i)] <= net[Answer(i)]
    ensures FollowerOk(net', p, f, goal, i)
  {
  }

  // The network loses packets, or copies some that carry no share.
  lemma TrafficServing(c: Config, goal: int, net: multiset<Packet>, t: nat)
    requires Serving(c, goal) && forall m :: m in net ==> m in c.net
    requires forall m: Packet :: !m.msg.Put? ==> net[m] <= c.net[m]
    ensures Serving(c.(net := net, clock := t), goal)
  {
    FewerShares(c.net, net, c.primary, c.one, goal, 1);
    FewerShares(c.net, net, c.primary, c.two, goal, 2);
  }

  function WithFollower(c: Config, i: nat, f: Follower): Config {
    if i == 1 then c.(one := f) else c.(two := f)
  }

  // A request becomes an acknowledgement.
  lemma ApplyServing(c: Config, variant: Variant, i: nat)
    requires Serving(c, Goal(variant)) && c.primary.Gathering? && i in {1, 2}
    requires Share(c.net, c.primary, Goal(variant), i) == 0
    ensures Serving(WithFollower(c, i, Follower(Some(Goal(variant)), true)).(net := c.net + multiset{Answer(i)}),
                    Goal(variant))
  {
    var net := c.net + multiset{Answer(i)};
    FewerShares(c.net, net, c.primary, FollowerAt(c, 3 - i), Goal(variant), 3 - i);
    assert net[Answer(i)] == 1 && net[Request(i, Goal(variant))] == 0;
  }

  lemma CopiesToBoth(v: int)
    ensures Copies([1, 2], v) == [Request(1, v), Request(2, v)]
  {
  }

  lemma StartServing(c: Config, variant: Variant)
    requires Serving(c, Goal(variant)) && Untouched(c.primary) && WaitsForBoth(variant) && c.client.AwaitingOk?
    ensures var rule := RuleFor(variant, Goal(variant)).value;
            Serving(c.(net := c.net + multiset(Copies(rule.targets, Goal(variant))),
                       primary := Gathering(CLIENT, Goal(variant), [], rule)), Goal(variant))
  {
    var goal := Goal(variant);
    CopiesToBoth(goal);
    var both := [Request(1, goal), Request(2, goal)];
    var net := c.net + multiset(both);
    assert forall m :: m in net ==> m in c.net || m in both;
    assert net[Request(1, goal)] == 1 && net[Request(2, goal)] == 1;
    assert net[Answer(1)] == 0 && net[Answer(2)] == 0;
  }

  // The second acknowledgement comes from the other follower.
  lemma SecondAckCommits(c: Config, goal: int, i: nat)
    requires Serving(c, goal) && c.primary.Gathering? && |c.primary.acked| == 1 && c.primary.acked[0] in {1, 2}
    requires i in {1, 2} && Share(c.net, c.primary, goal, i) == 0 && FollowerAt(c, i).value == Some(goal)
    ensures Committed(c, goal)
  {
    var other := c.primary.acked[0];
    assert c.primary.acked == [other];
    assert AckedBy(c.primary, other) == 1;
    assert other != i && FollowerAt(c, other).value == Some(goal);
  }

  lemma FirstAckServing(c: Config, goal: int, i: nat)
    requires Serving(c, goal) && c.primary.Gathering? && c.primary.acked == [] && i in {1, 2}
    requires Share(c.net, c.primary, goal, i) == 0 && FollowerAt(c, i).value == Some(goal)
    ensures Serving(c.(primary := c.primary.(acked := [i])), goal)
  {
    assert multiset([i])[i] == 1 && multiset([i])[3 - i] == 0;
  }

  // Taking a packet in frees the share it carried.
  lemma TakenServing(c: Config, goal: int, m: Packet, t: nat)
    requires Serving(c, goal) && m in c.net
    ensures var c' := c.(net := c.net - multiset{m}, clock := t);
            && Serving(c', goal)
            && (forall i :: i in {1, 2} && m == Request(i, goal) ==>
                  c.primary.Gathering? && Share(c'.net, c.primary, goal, i) == 0)
            && (forall i :: i in {1, 2} && m == Answer(i) ==>
                  c.primary.Gathering? && Share(c'.net, c.primary, goal, i) == 0
                  && FollowerAt(c, i).value == Some(goal))
  {
    TrafficServing(c, goal, c.net - multiset{m}, t);
    assert c.net[m] >= 1;
  }

  lemma PrimaryIgnores(c: Config, variant: Variant, m: Packet)
    requires PrimaryTurn(variant, c.primary, m) == (c.primary, [])
    ensures StepPrimary(variant, c, m) == c
  {
    SentNothing(c.net);
  }

  lemma FirstAckCounted(c: Config, variant: Variant, i: nat)
    requires c.primary.Gathering? && c.primary.acked == [] && c.primary.rule.needed == 2
    ensures StepPrimary(variant, c, Answer(i)) == c.(primary := c.primary.(acked := [i]))
  {
    SentNothing(c.net);
    assert c.primary.acked + [i] == [i];
  }

  lemma PrimaryCounts(c: Config, variant: Variant, i: nat)
    requires WaitsForBoth(variant) && Serving(c, Goal(variant)) && PrimaryShape(variant, c.primary)
    requires i in {1, 2} && c.primary.Gathering? && Share(c.net, c.primary, Goal(variant), i) == 0
    requires FollowerAt(c, i).value == Some(Goal(variant))
    ensures Serving(StepPrimary(variant, c, Answer(i)), Goal(variant)) || Committed(c, Goal(variant))
  {
    if c.primary.acked == [] {
      FirstAckCounted(c, variant, i);
      FirstAckServing(c, Goal(variant), i);
    } else {
      SecondAckCommits(c, Goal(variant), i);
    }
  }

  lemma PrimaryServes(c: Config, variant: Variant, m: Packet)
    requires WaitsForBoth(variant) && Serving(c, Goal(variant)) && PrimaryShape(variant, c.primary)
    requires c.client.AwaitingOk?
    requires ShapeOk(variant, m) && m.target == PRIMARY && (m.msg.Put? || m.msg.Ack?)
    requires m.msg.Ack? ==> c.primary.Gathering? && Share(c.net, c.primary, Goal(variant), m.source) == 0
                            && FollowerAt(c, m.source).value == Some(Goal(variant))
    ensures Serving(StepPrimary(variant, c, m), Goal(variant)) || Committed(c, Goal(variant))
  {
    if m.msg.Ack? {
      PrimaryCounts(c, variant, m.source);
    } else if Untouched(c.primary) {
      StartServing(c, variant);
    } else {
      PrimaryIgnores(c, variant, m);
    }
  }

  lemma FollowerServes(c: Config, variant: Variant, m: Packet)
    requires Serving(c, Goal(variant)) && c.primary.Gathering?
    requires m == Request(m.target, Goal(variant)) && m.target in {1, 2}
    requires Share(c.net, c.primary, Goal(variant), m.target) == 0
    ensures Serving(StepFollower(c, m), Goal(variant))
  {
    SentNothing(c.net);
    ApplyServing(c, variant, m.target);
  }

  // ----- every run that duplicates neither requests nor acknowledgements -----

  const SHARES: set<Kind> := {ReplicateKind, AckKind}

  lemma DeliverServing(c: Config, variant: Variant, m: Packet, t: nat)
    requires WaitsForBoth(variant) && CommitInv(c, variant) && Serving(c, Goal(variant)) && CanHappen(c, Receive(m, t))
    requires c.client.AwaitingOk?
    ensures var c' := Step(variant, c, Receive(m, t));
            Serving(c', Goal(variant)) || Committed(c', Goal(variant))
  {
    TakenServing(c, Goal(variant), m, t);
    assert ShapeOk(variant, m);
    var taken := c.(net := c.net - multiset{m}, clock := t);
    if m.target == PRIMARY {
      PrimaryServes(taken, variant, m);
    } else {
      FollowerServes(taken, variant, m);
    }
  }

  lemma ReceiveCommit(c: Config, variant: Variant, m: Packet, t: nat)
    requires WaitsForBoth(variant) && CommitInv(c, variant) && CanHappen(c, Receive(m, t))
    requires c.client.Idle? ==> c.net == multiset{}
    ensures CommitInv(Step(variant, c, Receive(m, t)), variant)
  {
    assert ShapeOk(variant, m);
    var taken := c.(net := c.net - multiset{m}, clock := t);
    assert forall x :: x in taken.net ==> x in c.net;
    DeliverShapes(taken, variant, m);
    if !Committed(c, Goal(variant)) {
      DeliverServing(c, variant, m, t);
    }
  }

  lemma StepCommit(c: Config, variant: Variant, e: Event)
    requires WaitsForBoth(variant) && CommitInv(c, variant) && CanHappen(c, e)
    requires e.Duplicate? ==> KindOf(e.packet.msg) !in SHARES
    requires c.client.Idle? ==> c.net == multiset{}
    ensures CommitInv(Step(variant, c, e), variant)
  {
    match e
    case Begin(t) => BeginCommit(c, variant, t);
    case Drop(m) => CopyCommit(c, variant, c.net - multiset{m}, c.clock);
    case Duplicate(m) => CopyCommit(c, variant, c.net + multiset{m}, c.clock);
    case Receive(m, t) => ReceiveCommit(c, variant, m, t);
  }

  lemma BeginCommit(c: Config, variant: Variant, t: nat)
    requires CommitInv(c, variant) && CanHappen(c, Begin(t)) && c.net == multiset{}
    ensures CommitInv(Step(variant, c, Begin(t)), variant)
  {
    var put := Packet(CLIENT, PRIMARY, Put(Goal(variant)));
    assert forall m :: m in multiset{} + multiset{put} ==> m == put;
  }

  lemma CopyCommit(c: Config, variant: Variant, net: multiset<Packet>, t: nat)
    requires CommitInv(c, variant) && forall m :: m in net ==> m in c.net
    requires forall m: Packet :: KindOf(m.msg) in SHARES ==> net[m] <= c.net[m]
    ensures CommitInv(c.(net := net, clock := t), variant)
  {
    if Serving(c, Goal(variant)) {
      FewerShares(c.net, net, c.primary, c.one, Goal(variant), 1);
      FewerShares(c.net, net, c.primary, c.two, Goal(variant), 2);
    }
  }

  lemma IdleStaysQuiet(c: Config, variant: Variant, e: Event)
    requires (c.client.Idle? ==> c.net == multiset{}) && CanHappen(c, e)
    ensures Step(variant, c, e).client.Idle? ==> Step(variant, c, e).net == multiset{}
  {
  }

  lemma {:induction false} RunCommit(c: Config, variant: Variant, events: seq<Event>, kinds: set<Kind>)
    requires WaitsForBoth(variant) && CommitInv(c, variant) && (c.client.Idle? ==> c.net == multiset{})
    requires IsRun(variant, c, events) && Duplicates(events, kinds) && kinds !! SHARES
    ensures CommitInv(After(variant, c, events), variant)
    decreases events
  {
    if events != [] {
      StepCommit(c, variant, events[0]);
      IdleStaysQuiet(c, variant, events[0]);
      assert forall k :: 0 <= k < |events[1..]| ==> events[1..][k] == events[k + 1];
      RunCommit(Step(variant, c, events[0]), variant, events[1..], kinds);
    }
  }

  ghost predicate HasAnswered(c: Config) {
    Packet(PRIMARY, CLIENT, Ok) in c.net || c.ops != []
  }

  // With requests and acknowledgements delivered at most once, once `ok` is on
  // its way, or the client has recorded anything, both followers hold the value.
  lemma QuorumSafety(variant: Variant, events: seq<Event>, kinds: set<Kind>)
    requires WaitsForBoth(variant) && IsRun(variant, Initial(), events) && Duplicates(events, kinds) && kinds !! SHARES
    ensures var c := After(variant, Initial(), events);
            HasAnswered(c) ==> Committed(c, Goal(variant))
  {
    RunCommit(Initial(), variant, events, kinds);
  }
}
