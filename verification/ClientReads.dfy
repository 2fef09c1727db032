// What the clients of the correct protocols read: an invariant under which the
// completed history is the put followed by a get that finds it.
module ClientReads {
  import opened Base
  import opened Protocols
  import opened Quorum

  // The put has been answered.
  ghost predicate Answered(p: Primary) {
    p.Stopped? || (p.Listening? && p.value.Some?)
  }

  ghost predicate HasRead(client: Client) {
    client.AwaitingValue? || client.Finished?
  }

  ghost predicate PacketOk(variant: Variant, p: Primary, client: Client, m: Packet) {
    && ShapeOk(variant, m)
    && match m.msg
       case Put(_) => variant == MiniRaft ==> Untouched(p)
       case Ok => Answered(p) && client.AwaitingOk?
       case Get => HasRead(client)
       case Found(x) => x == Some(Goal(variant)) && HasRead(client)
       case _ => true
  }

  function PutPacket(variant: Variant): Packet {
    Packet(CLIENT, PRIMARY, Put(Goal(variant)))
  }

  const OK_PACKET: Packet := Packet(PRIMARY, CLIENT, Ok)

  ghost predicate PacketsOk(variant: Variant, p: Primary, client: Client, net: multiset<Packet>) {
    && (forall m :: m in net ==> PacketOk(variant, p, client, m))
    && (variant == MiniRaft ==> net[PutPacket(variant)] <= 1)
    && net[OK_PACKET] <= 1
  }

  ghost predicate IsPutThenGet(ops: seq<ClientOp>, goal: int, clock: nat) {
    && |ops| == 2 && ops[0].DidPut? && ops[1].DidGet?
    && ops[0].value == goal && ops[1].found == Some(goal)
    && ops[0].invoke <= ops[0].complete == ops[1].invoke <= ops[1].complete <= clock
  }

  ghost predicate ClientOk(variant: Variant, p: Primary, client: Client, ops: seq<ClientOp>, clock: nat) {
    match client
    case Idle => ops == [] && Untouched(p)
    case AwaitingOk(k, invoke) => k == 0 && ops == [] && invoke <= clock
    case AwaitingValue(invoke) =>
      && Answered(p) && |ops| == 1 && ops[0].DidPut? && ops[0].value == Goal(variant)
      && ops[0].invoke <= ops[0].complete == invoke <= clock
    case Finished => Answered(p) && IsPutThenGet(ops, Goal(variant), clock)
  }

  ghost predicate ReadInv(c: Config, variant: Variant) {
    && PacketsOk(variant, c.primary, c.client, c.net)
    && PrimaryShape(variant, c.primary) && (c.primary.Gathering? ==> c.client.AwaitingOk?)
    && (variant == Correct && c.primary.Listening? ==> Untouched(c.primary))
    && ClientOk(variant, c.primary, c.client, c.ops, c.clock)
    && (c.client.Idle? ==> c.net == multiset{})
  }

  // ----- traffic -----

  // Packets are lost, or copied where a second copy does no harm.
  lemma CopiesOk(variant: Variant, p: Primary, client: Client, net: multiset<Packet>, net': multiset<Packet>)
    requires PacketsOk(variant, p, client, net) && forall m :: m in net' ==> m in net
    requires variant == MiniRaft ==> net'[PutPacket(variant)] <= net[PutPacket(variant)]
    requires net'[OK_PACKET] <= net[OK_PACKET]
    ensures PacketsOk(variant, p, client, net')
  {
  }

  lemma PacketsKept(variant: Variant, p: Primary, p': Primary, client: Client, client': Client, net: multiset<Packet>)
    requires PacketsOk(variant, p, client, net)
    requires variant == MiniRaft && Untouched(p) ==> Untouched(p') || PutPacket(variant) !in net
    requires Answered(p) ==> Answered(p')
    requires client.AwaitingOk? ==> client'.AwaitingOk? || OK_PACKET !in net
    requires HasRead(client) ==> HasRead(client')
    ensures PacketsOk(variant, p', client', net)
  {
    forall m | m in net ensures PacketOk(variant, p', client', m) {
      assert PacketOk(variant, p, client, m);
      if m.msg.Put? { assert m == PutPacket(variant); }
      if m.msg.Ok? { assert m == OK_PACKET; }
    }
  }

  ghost predicate SendsOk(variant: Variant, p: Primary, client: Client, out: seq<Packet>) {
    forall k :: 0 <= k < |out| ==> PacketOk(variant, p, client, out[k])
  }

  lemma PacketsSent(variant: Variant, p: Primary, client: Client, net: multiset<Packet>, out: seq<Packet>)
    requires PacketsOk(variant, p, client, net) && SendsOk(variant, p, client, out)
    requires forall k :: 0 <= k < |out| ==> !out[k].msg.Put? && !out[k].msg.Ok?
    ensures PacketsOk(variant, p, client, net + multiset(out))
  {
    forall m | m in net + multiset(out) ensures PacketOk(variant, p, client, m) {
      assert m in net || m in out;
    }
    assert PutPacket(variant) !in out && OK_PACKET !in out;
  }

  lemma OkSent(variant: Variant, p: Primary, client: Client, net: multiset<Packet>)
    requires PacketsOk(variant, p, client, net) && OK_PACKET !in net && Answered(p) && client.AwaitingOk?
    ensures PacketsOk(variant, p, client, net + multiset([OK_PACKET]))
  {
    assert forall m :: m in net + multiset([OK_PACKET]) ==> m in net || m == OK_PACKET;
  }

  // ----- the nodes -----

  lemma PrimaryPuts(c: Config, variant: Variant, m: Packet)
    requires WaitsForBoth(variant) && ReadInv(c, variant) && m == PutPacket(variant) && !c.client.Idle?
    requires variant == MiniRaft ==> Untouched(c.primary) && m !in c.net
    ensures ReadInv(StepPrimary(variant, c, m), variant)
  {
    var (p, out) := PrimaryTurn(variant, c.primary, m);
    if Untouched(c.primary) {
      CopiesToBoth(Goal(variant));
      PacketsKept(variant, c.primary, p, c.client, c.client, c.net);
      PacketsSent(variant, p, c.client, c.net, out);
    } else {
      PrimaryIgnores(c, variant, m);
    }
  }

  lemma PrimaryAcks(c: Config, variant: Variant, m: Packet)
    requires WaitsForBoth(variant) && ReadInv(c, variant) && m.msg.Ack? && c.primary.Gathering? && !c.client.Idle?
    requires m.source in {1, 2}
    ensures ReadInv(StepPrimary(variant, c, m), variant)
  {
    var (p, out) := PrimaryTurn(variant, c.primary, m);
    NotAnsweredYet(c, variant);
    PacketsKept(variant, c.primary, p, c.client, c.client, c.net);
    if p.Gathering? {
      SentNothing(c.net);
    } else {
      OkSent(variant, p, c.client, c.net);
    }
  }

  lemma NotAnsweredYet(c: Config, variant: Variant)
    requires ReadInv(c, variant) && !Answered(c.primary)
    ensures OK_PACKET !in c.net
  {
    assert !PacketOk(variant, c.primary, c.client, OK_PACKET);
  }

  lemma LeaderReads(c: Config, variant: Variant, m: Packet)
    requires variant == MiniRaft && ReadInv(c, variant) && m == Packet(CLIENT, PRIMARY, Get) && c.primary.Listening?
    requires HasRead(c.client)
    ensures ReadInv(StepPrimary(variant, c, m), variant)
  {
    var (p, out) := PrimaryTurn(variant, c.primary, m);
    PacketsKept(variant, c.primary, p, c.client, c.client, c.net);
    PacketsSent(variant, p, c.client, c.net, out);
  }

  lemma PrimaryReads(c: Config, variant: Variant, m: Packet)
    requires WaitsForBoth(variant) && ReadInv(c, variant) && m.target == PRIMARY && !c.client.Idle?
    requires PacketOk(variant, c.primary, c.client, m) && (variant == MiniRaft && m.msg.Put? ==> m !in c.net)
    ensures ReadInv(StepPrimary(variant, c, m), variant)
  {
    if m.msg.Put? {
      PrimaryPuts(c, variant, m);
    } else if m.msg.Ack? && c.primary.Gathering? {
      PrimaryAcks(c, variant, m);
    } else if m.msg.Get? && c.primary.Listening? {
      LeaderReads(c, variant, m);
    } else {
      PrimaryIgnores(c, variant, m);
    }
  }

  lemma FollowerReads(c: Config, variant: Variant, m: Packet)
    requires WaitsForBoth(variant) && ReadInv(c, variant) && m.target in {1, 2} && !c.client.Idle?
    requires PacketOk(variant, c.primary, c.client, m)
    requires m.msg.Get? ==> c.one.value == Some(Goal(variant))
    ensures ReadInv(StepFollower(c, m), variant)
  {
    var f := if m.target == 1 then c.one else c.two;
    PacketsSent(variant, c.primary, c.client, c.net, FollowerTurn(f, m.target, m).1);
  }

  lemma ClientAsks(c: Config, variant: Variant)
    requires WaitsForBoth(variant) && ReadInv(c, variant) && c.client.AwaitingOk? && Answered(c.primary)
    requires OK_PACKET !in c.net
    ensures ReadInv(StepClient(variant, c, Ok, c.clock), variant)
  {
    var (client, ops, out) := ClientTurn(variant, c.client, c.ops, Ok, c.clock);
    PacketsKept(variant, c.primary, c.primary, c.client, client, c.net);
    PacketsSent(variant, c.primary, client, c.net, out);
  }

  lemma ClientFinds(c: Config, variant: Variant)
    requires WaitsForBoth(variant) && ReadInv(c, variant) && c.client.AwaitingValue?
    ensures ReadInv(StepClient(variant, c, Found(Some(Goal(variant))), c.clock), variant)
  {
    var (client, ops, out) := ClientTurn(variant, c.client, c.ops, Found(Some(Goal(variant))), c.clock);
    PacketsKept(variant, c.primary, c.primary, c.client, client, c.net);
    PacketsSent(variant, c.primary, client, c.net, out);
  }

  lemma ClientIgnores(c: Config, variant: Variant, msg: Msg)
    requires c.client.Idle? || c.client.Finished?
    ensures StepClient(variant, c, msg, c.clock) == c
  {
    SentNothing(c.net);
  }

  lemma ClientReacts(c: Config, variant: Variant, m: Packet)
    requires WaitsForBoth(variant) && ReadInv(c, variant) && m.target == CLIENT
    requires PacketOk(variant, c.primary, c.client, m) && (m.msg.Ok? ==> m !in c.net)
    ensures ReadInv(StepClient(variant, c, m.msg, c.clock), variant)
  {
    if c.client.AwaitingOk? {
      ClientAsks(c, variant);
    } else if c.client.AwaitingValue? {
      ClientFinds(c, variant);
    } else {
      ClientIgnores(c, variant, m.msg);
    }
  }

  // ----- every run -----

  // The kinds of which a second copy can change what the client records.
  function Harmful(variant: Variant): set<Kind> {
    if variant == MiniRaft then {PutKind, OkKind} else SHARES + {OkKind}
  }

  lemma TakenReads(c: Config, variant: Variant, m: Packet, t: nat)
    requires ReadInv(c, variant) && m in c.net && t >= c.clock
    ensures var c' := c.(net := c.net - multiset{m}, clock := t);
            && ReadInv(c', variant) && PacketOk(variant, c'.primary, c'.client, m)
            && (variant == MiniRaft && m.msg.Put? ==> m !in c'.net) && (m.msg.Ok? ==> m !in c'.net)
  {
    CopiesOk(variant, c.primary, c.client, c.net, c.net - multiset{m});
  }

  lemma ReceiveReads(c: Config, variant: Variant, m: Packet, t: nat)
    requires WaitsForBoth(variant) && ReadInv(c, variant) && CanHappen(c, Receive(m, t))
    requires variant == Correct ==> CommitInv(c, variant)
    ensures ReadInv(Step(variant, c, Receive(m, t)), variant)
  {
    TakenReads(c, variant, m, t);
    var taken := c.(net := c.net - multiset{m}, clock := t);
    assert !c.client.Idle?;
    if m.target == PRIMARY {
      PrimaryReads(taken, variant, m);
    } else if m.target == CLIENT {
      ClientReacts(taken, variant, m);
    } else {
      FollowerReads(taken, variant, m);
    }
  }

  lemma BeginReads(c: Config, variant: Variant, t: nat)
    requires WaitsForBoth(variant) && ReadInv(c, variant) && CanHappen(c, Begin(t))
    ensures ReadInv(Step(variant, c, Begin(t)), variant)
  {
    var put := PutPacket(variant);
    assert forall m :: m in multiset{} + multiset{put} ==> m == put;
  }

  lemma StepReads(c: Config, variant: Variant, e: Event)
    requires WaitsForBoth(variant) && ReadInv(c, variant) && CanHappen(c, e)
    requires variant == Correct ==> CommitInv(c, variant)
    requires e.Duplicate? ==> KindOf(e.packet.msg) !in Harmful(variant)
    ensures ReadInv(Step(variant, c, e), variant)
  {
    match e
    case Begin(t) => BeginReads(c, variant, t);
    case Drop(m) => CopiesOk(variant, c.primary, c.client, c.net, c.net - multiset{m});
    case Duplicate(m) => CopiesOk(variant, c.primary, c.client, c.net, c.net + multiset{m});
    case Receive(m, t) => ReceiveReads(c, variant, m, t);
  }

  lemma {:induction false} RunReads(c: Config, variant: Variant, events: seq<Event>, kinds: set<Kind>)
    requires WaitsForBoth(variant) && ReadInv(c, variant) && (variant == Correct ==> CommitInv(c, variant))
    requires IsRun(variant, c, events) && Duplicates(events, kinds) && kinds !! Harmful(variant)
    ensures ReadInv(After(variant, c, events), variant)
    decreases events
  {
    if events != [] {
      StepReads(c, variant, events[0]);
      if variant == Correct {
        StepCommit(c, variant, events[0]);
      }
      assert forall k :: 0 <= k < |events[1..]| ==> events[1..][k] == events[k + 1];
      RunReads(Step(variant, c, events[0]), variant, events[1..], kinds);
    }
  }

  // With no harmful duplication a client that finishes has recorded its put and
  // a get that found it.
  lemma FinishedReadIsFresh(variant: Variant, events: seq<Event>, kinds: set<Kind>)
    requires WaitsForBoth(variant) && IsRun(variant, Initial(), events)
    requires Duplicates(events, kinds) && kinds !! Harmful(variant)
    ensures var c := After(variant, Initial(), events);
            c.client.Finished? ==> IsPutThenGet(c.ops, Goal(variant), c.clock)
  {
    RunReads(Initial(), variant, events, kinds);
  }
}
