// The reference protocols as message-passing machines over a network that drops,
// delays and reorders: the primary-backup store in three of its variants, and
// Mini-Raft's correct leader and followers.
module Protocols {
  import opened Base
  import opened Checker
  import M = Models

  const PRIMARY: nat := 0
  const CLIENT: nat := 3

  datatype Variant = Correct | ReadFromStaleFollower | LostUpdate | MiniRaft

  datatype Msg =
    | Put(value: int)
    | Replicate(value: int)
    | Ack
    | Ok
    | Get
    | Found(found: Option<int>)
    | Stop

  datatype Packet = Packet(source: nat, target: nat, msg: Msg)

  // How the primary serves a put: whom it copies, how many acknowledgements it
  // waits for, and whether it stops afterwards.
  datatype Rule = Rule(targets: seq<nat>, needed: nat, last: bool)

  function RuleFor(variant: Variant, value: int): Option<Rule> {
    match variant
    case Correct => if value == 7 then Some(Rule([1, 2], 2, true)) else None
    case ReadFromStaleFollower => if value == 7 then Some(Rule([2], 1, true)) else None
    case LostUpdate =>
      if value == 7 then Some(Rule([1], 1, false))
      else if value == 9 then Some(Rule([2], 1, true))
      else None
    case MiniRaft => if value == 1 then Some(Rule([1, 2], 2, false)) else None
  }

  // `acked` remembers who sent the acknowledgements counted so far; the code
  // keeps only their number and never looks at the sender.
  datatype Primary =
    | Listening(value: Option<int>)
    | Gathering(client: nat, proposal: int, acked: seq<nat>, rule: Rule)
    | Stopped

  datatype Follower = Follower(value: Option<int>, serving: bool)

  datatype ClientOp =
    | DidPut(value: int, invoke: nat, complete: nat)
    | DidGet(found: Option<int>, invoke: nat, complete: nat)

  datatype Client =
    | Idle
    | AwaitingOk(putIndex: nat, invoke: nat)
    | AwaitingValue(invoke: nat)
    | Finished

  datatype Config = Config(net: multiset<Packet>, primary: Primary, one: Follower, two: Follower,
                           client: Client, ops: seq<ClientOp>, clock: nat)

  function Initial(): Config {
    Config(multiset{}, Listening(None), Follower(None, true), Follower(None, true), Idle, [], 0)
  }

  // ----- the nodes: the new state and what is sent, in order -----

  function Copies(targets: seq<nat>, value: int): seq<Packet> {
    seq(|targets|, k requires 0 <= k < |targets| => Packet(PRIMARY, targets[k], Replicate(value)))
  }

  function PrimaryTurn(variant: Variant, p: Primary, m: Packet): (Primary, seq<Packet>) {
    match p
    case Stopped => (p, [])
    case Listening(value) =>
      (match m.msg
       case Put(v) =>
         (match RuleFor(variant, v)
          case None => (p, [])
          case Some(rule) => (Gathering(m.source, v, [], rule), Copies(rule.targets, v)))
       case Get =>
         if variant != MiniRaft then (p, [])
         else (Stopped, [Packet(PRIMARY, m.source, Found(value)), Packet(PRIMARY, 1, Stop), Packet(PRIMARY, 2, Stop)])
       case _ => (p, []))
    case Gathering(client, v, acked, rule) =>
      if m.msg != Ack then (p, [])
      else
        var acked' := acked + [m.source];
        if |acked'| < rule.needed then (Gathering(client, v, acked', rule), [])
        else (if rule.last then Stopped else Listening(Some(v)), [Packet(PRIMARY, client, Ok)])
  }

  function FollowerTurn(f: Follower, self: nat, m: Packet): (Follower, seq<Packet>) {
    if !f.serving then (f, [])
    else
      match m.msg
      case Replicate(v) => (Follower(Some(v), true), [Packet(self, m.source, Ack)])
      case Get => (Follower(f.value, false), [Packet(self, m.source, Found(f.value))])
      case Stop => (Follower(f.value, false), [])
      case _ => (f, [])
  }

  function PutValue(variant: Variant, k: nat): int {
    if variant == MiniRaft then 1 else if k == 0 then 7 else 9
  }

  function Puts(variant: Variant): nat {
    if variant == LostUpdate then 2 else 1
  }

  function Reader(variant: Variant): nat {
    if variant == MiniRaft then PRIMARY else 1
  }

  // What Mini-Raft's client records when the read misses its own write.
  const STALE_HISTORY: seq<ClientOp> := [DidPut(1, 0, 1), DidGet(None, 2, 3)]

  function ClientTurn(variant: Variant, client: Client, ops: seq<ClientOp>, msg: Msg, t: nat)
    : (Client, seq<ClientOp>, seq<Packet>)
  {
    match client
    case Idle => (client, ops, [])
    case Finished => (client, ops, [])
    case AwaitingOk(k, invoke) =>
      var ops' := if msg == Ok then ops + [DidPut(PutValue(variant, k), invoke, t)] else ops;
      if k + 1 < Puts(variant) then
        (AwaitingOk(k + 1, t), ops', [Packet(CLIENT, PRIMARY, Put(PutValue(variant, k + 1)))])
      else
        (AwaitingValue(t), ops', [Packet(CLIENT, Reader(variant), Get)])
    case AwaitingValue(invoke) =>
      var found := if msg.Found? then msg.found else None;
      if variant == MiniRaft then
        (Finished, if found.None? then STALE_HISTORY else ops + [DidGet(found, invoke, t)], [])
      else
        (Finished, ops + [DidGet(found, invoke, t)], [Packet(CLIENT, 1, Stop), Packet(CLIENT, 2, Stop)])
  }

  // ----- the system -----

  // The client starts; a packet arrives and its receiver runs until it waits
  // again; the network loses a packet or delivers an extra copy of one. Times
  // are readings of the client's clock.
  datatype Event =
    | Begin(time: nat)
    | Receive(packet: Packet, time: nat)
    | Drop(packet: Packet)
    | Duplicate(packet: Packet)

  predicate CanHappen(c: Config, e: Event) {
    match e
    case Begin(t) => c.client == Idle && t >= c.clock
    case Receive(m, t) => m in c.net && t >= c.clock
    case Drop(m) => m in c.net
    case Duplicate(m) => m in c.net
  }

  function StepPrimary(variant: Variant, c: Config, m: Packet): Config {
    var (p, out) := PrimaryTurn(variant, c.primary, m);
    c.(primary := p, net := c.net + multiset(out))
  }

  function StepFollower(c: Config, m: Packet): Config {
    var (f, out) := FollowerTurn(if m.target == 1 then c.one else c.two, m.target, m);
    var c' := c.(net := c.net + multiset(out));
    if m.target == 1 then c'.(one := f) else c'.(two := f)
  }

  function StepClient(variant: Variant, c: Config, msg: Msg, t: nat): Config {
    var (client, ops, out) := ClientTurn(variant, c.client, c.ops, msg, t);
    c.(client := client, ops := ops, net := c.net + multiset(out))
  }

  lemma SentNothing(net: multiset<Packet>)
    ensures net + multiset([]) == net
  {
  }

  // The receiver of a packet takes its turn.
  function React(variant: Variant, c: Config, m: Packet): Config {
    if m.target == PRIMARY then StepPrimary(variant, c, m)
    else if m.target in {1, 2} then StepFollower(c, m)
    else if m.target == CLIENT then StepClient(variant, c, m.msg, c.clock)
    else c
  }

  function Step(variant: Variant, c: Config, e: Event): Config {
    match e
    case Begin(t) =>
      c.(client := AwaitingOk(0, t), clock := t,
         net := c.net + multiset{Packet(CLIENT, PRIMARY, Put(PutValue(variant, 0)))})
    case Drop(m) => c.(net := c.net - multiset{m})
    case Duplicate(m) => c.(net := c.net + multiset{m})
    case Receive(m, t) =>
      React(variant, c.(net := c.net - multiset{m}, clock := t), m)
  }

  ghost predicate IsRun(variant: Variant, c: Config, events: seq<Event>)
    decreases events
  {
    events == [] || (CanHappen(c, events[0]) && IsRun(variant, Step(variant, c, events[0]), events[1..]))
  }

  function After(variant: Variant, c: Config, events: seq<Event>): Config
    decreases events
  {
    if events == [] then c else After(variant, Step(variant, c, events[0]), events[1..])
  }

  datatype Kind = PutKind | ReplicateKind | AckKind | OkKind | GetKind | FoundKind | StopKind

  function KindOf(msg: Msg): Kind {
    match msg
    case Put(_) => PutKind
    case Replicate(_) => ReplicateKind
    case Ack => AckKind
    case Ok => OkKind
    case Get => GetKind
    case Found(_) => FoundKind
    case Stop => StopKind
  }

  // The network delivers extra copies only of messages of these kinds.
  ghost predicate Duplicates(events: seq<Event>, kinds: set<Kind>) {
    forall k :: 0 <= k < |events| && events[k].Duplicate? ==> KindOf(events[k].packet.msg) in kinds
  }

  // ----- what the checker sees -----

  function Record(op: ClientOp, id: nat): OpRecord<M.SingleKeyInput<int>, M.SingleKeyOutput<int>> {
    match op
    case DidPut(v, invoke, complete) =>
      OpRecord(id, CLIENT, invoke, Some(complete), M.SingleKeyInput.Put(v), Some(M.SingleKeyOutput.Done))
    case DidGet(found, invoke, complete) =>
      OpRecord(id, CLIENT, invoke, Some(complete), M.SingleKeyInput.Get, Some(M.SingleKeyOutput.Found(found)))
  }

  function Recorded(ops: seq<ClientOp>): seq<OpRecord<M.SingleKeyInput<int>, M.SingleKeyOutput<int>>> {
    seq(|ops|, k requires 0 <= k < |ops| => Record(ops[k], k + 1))
  }

  ghost predicate Accepted(ops: seq<ClientOp>) {
    exists path :: IsLinearization(M.SingleKeyKv(None), Recorded(ops), path)
  }
}
