// The protocol nodes as the code runs them: objects that receive one message at
// a time and update their own variables. Each is proved to take the step of the
// system model; `sent` lists what it sends, in order.
module ProtocolNodes {
  import opened Base
  import opened Protocols

  class PrimaryNode {
    const variant: Variant
    var running: bool
    var value: Option<int>
    var waiting: Option<(nat, int, Rule)>  // the client, the value and the quorum of the put being served
    var acks: nat
    ghost var ackers: seq<nat>

    ghost predicate Valid()
      reads this
    {
      (waiting.Some? ==> running) && acks == |ackers|
    }

    ghost function State(): Primary
      reads this
    {
      if !running then Stopped
      else if waiting.Some? then Gathering(waiting.value.0, waiting.value.1, ackers, waiting.value.2)
      else Listening(value)
    }

    constructor (variant: Variant)
      ensures Valid() && State() == Listening(None) && this.variant == variant
    {
      this.variant := variant;
      running, value, waiting, acks, ackers := true, None, None, 0, [];
    }

    method Receive(m: Packet) returns (sent: seq<Packet>)
      requires Valid()
      modifies this
      ensures Valid()
      ensures (State(), sent) == PrimaryTurn(variant, old(State()), m)
    {
      sent := [];
      if !running {
        return;
      }
      if waiting.None? {
        match m.msg
        case Put(v) =>
          var rule := RuleFor(variant, v);
          if rule.Some? {
            sent := Replicates(rule.value.targets, v);
            waiting, acks, ackers := Some((m.source, v, rule.value)), 0, [];
          }
        case Get =>
          if variant == MiniRaft {
            sent := [Packet(PRIMARY, m.source, Found(value)), Packet(PRIMARY, 1, Stop), Packet(PRIMARY, 2, Stop)];
            running := false;
          }
        case _ =>
      } else if m.msg == Ack {
        acks := acks + 1;
        ackers := ackers + [m.source];
        var (client, v, rule) := waiting.value;
        if acks >= rule.needed {
          sent := [Packet(PRIMARY, client, Ok)];
          value, waiting, running := Some(v), None, !rule.last;
        }
      }
    }

    static method Replicates(targets: seq<nat>, v: int) returns (sent: seq<Packet>)
      ensures sent == Copies(targets, v)
    {
      sent := [];
      for k := 0 to |targets|
        invariant |sent| == k && forall j :: 0 <= j < k ==> sent[j] == Packet(PRIMARY, targets[j], Replicate(v))
      {
        sent := sent + [Packet(PRIMARY, targets[k], Replicate(v))];
      }
    }
  }

  class FollowerNode {
    const self: nat
    var value: Option<int>
    var serving: bool

    ghost function State(): Follower
      reads this
    {
      Follower(value, serving)
    }

    constructor (self: nat)
      ensures State() == Follower(None, true) && this.self == self
    {
      this.self, value, serving := self, None, true;
    }

    method Receive(m: Packet) returns (sent: seq<Packet>)
      modifies this
      ensures (State(), sent) == FollowerTurn(old(State()), self, m)
    {
      sent := [];
      if serving {
        match m.msg
        case Replicate(v) =>
          value := Some(v);
          sent := [Packet(self, m.source, Ack)];
        case Get =>
          sent := [Packet(self, m.source, Found(value))];
          serving := false;
        case Stop => serving := false;
        case _ =>
      }
    }
  }

  class ClientNode {
    const variant: Variant
    var phase: Client
    var ops: seq<ClientOp>

    constructor (variant: Variant)
      ensures phase == Idle && ops == [] && this.variant == variant
    {
      this.variant, phase, ops := variant, Idle, [];
    }

    method Start(t: nat) returns (sent: seq<Packet>)
      requires phase == Idle
      modifies this
      ensures forall c: Config :: c.client == old(phase) && c.ops == old(ops) ==>
                Step(variant, c, Begin(t)) == c.(client := phase, ops := ops, clock := t, net := c.net + multiset(sent))
    {
      phase := AwaitingOk(0, t);
      sent := [Packet(CLIENT, PRIMARY, Put(PutValue(variant, 0)))];
    }

    method Receive(msg: Msg, t: nat) returns (sent: seq<Packet>)
      modifies this
      ensures (phase, ops, sent) == ClientTurn(variant, old(phase), old(ops), msg, t)
    {
      sent := [];
      match phase
      case Idle =>
      case Finished =>
      case AwaitingOk(k, invoke) =>
        if msg == Ok {
          ops := ops + [DidPut(PutValue(variant, k), invoke, t)];
        }
        if k + 1 < Puts(variant) {
          phase := AwaitingOk(k + 1, t);
          sent := [Packet(CLIENT, PRIMARY, Put(PutValue(variant, k + 1)))];
        } else {
          phase := AwaitingValue(t);
          sent := [Packet(CLIENT, Reader(variant), Get)];
        }
      case AwaitingValue(invoke) =>
        var found := if msg.Found? then msg.found else None;
        ops := ops + [DidGet(found, invoke, t)];
        phase := Finished;
        if variant != MiniRaft {
          sent := [Packet(CLIENT, 1, Stop), Packet(CLIENT, 2, Stop)];
        } else if found.None? {
          ops := STALE_HISTORY;
        }
    }
  }
}
