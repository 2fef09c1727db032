// The entropy tape: every control-plane decision draws from it, either from a
// seeded generator or from a recording.
module Tape {
  import opened Base

  datatype TapeLabel =
    NetDelay | DropDecision | DuplicateDecision | ExtraDelay | CrashPoint | PartitionDraw | RestartDraw | SkewDraw
    | Jitter | NemesisDraw | Other

  datatype TapeEvent = TapeEvent(index: nat, tag: TapeLabel, value: nat)

  // A generator is the stream of values its seed produces, read at |log|.
  datatype EntropyTape =
    | Generate(stream: nat -> nat, log: seq<nat>, events: seq<TapeEvent>)
    | Replay(tape: seq<nat>, cursor: nat, log: seq<nat>, events: seq<TapeEvent>)

  function Generating(stream: nat -> nat): EntropyTape {
    Generate(stream, [], [])
  }

  function Replaying(tape: seq<nat>): EntropyTape {
    Replay(tape, 0, [], [])
  }

  // The next value; past the end of a recording it is zero.
  function NextValue(t: EntropyTape): nat {
    match t
    case Generate(stream, log, _) => stream(|log|)
    case Replay(tape, cursor, _, _) => if cursor < |tape| then tape[cursor] else 0
  }

  function Draw(t: EntropyTape, tag: TapeLabel): (EntropyTape, nat) {
    var v := NextValue(t);
    match t
    case Generate(stream, log, events) =>
      (Generate(stream, log + [v], events + [TapeEvent(|log|, tag, v)]), v)
    case Replay(tape, cursor, log, events) =>
      (Replay(tape, cursor + 1, log + [v], events + [TapeEvent(cursor, tag, v)]), v)
  }

  datatype Diagnostics =
    Diagnostics(replaying: bool, inputLen: Option<nat>, cursor: nat, consumedAll: bool, exhausted: bool)

  function Diagnose(t: EntropyTape): Diagnostics {
    match t
    case Generate(_, log, _) => Diagnostics(false, None, |log|, true, false)
    case Replay(tape, cursor, _, _) => Diagnostics(true, Some(|tape|), cursor, cursor >= |tape|, cursor > |tape|)
  }

  // ----- drawing again and again -----

  function DrawAll(t: EntropyTape, tags: seq<TapeLabel>): (EntropyTape, seq<nat>) {
    if tags == [] then (t, [])
    else
      var (t1, before) := DrawAll(t, tags[..|tags| - 1]);
      var (t2, v) := Draw(t1, tags[|tags| - 1]);
      (t2, before + [v])
  }

  function Events(tags: seq<TapeLabel>, values: seq<nat>): seq<TapeEvent>
    requires |tags| == |values|
  {
    seq(|tags|, i requires 0 <= i < |tags| => TapeEvent(i, tags[i], values[i]))
  }

  // A generator gives its stream from the start, each value once, and logs each
  // with its label.
  lemma {:induction false} GeneratorDraws(stream: nat -> nat, tags: seq<TapeLabel>)
    ensures var (t, values) := DrawAll(Generating(stream), tags);
            && values == seq(|tags|, i requires 0 <= i < |tags| => stream(i))
            && t == Generate(stream, values, Events(tags, values))
            && Diagnose(t) == Diagnostics(false, None, |tags|, true, false)
    decreases |tags|
  {
    if tags != [] {
      var front := tags[..|tags| - 1];
      GeneratorDraws(stream, front);
      var (t1, before) := DrawAll(Generating(stream), front);
      assert Events(tags, before + [stream(|front|)])
          == Events(front, before) + [TapeEvent(|front|, tags[|front|], stream(|front|))];
    }
  }

  // A recording gives its values from the start and zeros for ever after; it is
  // consumed once every value has been drawn, and exhausted by one draw more.
  lemma {:induction false} RecordingDraws(tape: seq<nat>, tags: seq<TapeLabel>)
    ensures var (t, values) := DrawAll(Replaying(tape), tags);
            && values == seq(|tags|, i requires 0 <= i < |tags| => if i < |tape| then tape[i] else 0)
            && t == Replay(tape, |tags|, values, Events(tags, values))
            && Diagnose(t) == Diagnostics(true, Some(|tape|), |tags|, |tags| >= |tape|, |tags| >= |tape| + 1)
    decreases |tags|
  {
    if tags != [] {
      var front := tags[..|tags| - 1];
      RecordingDraws(tape, front);
      var (t1, before) := DrawAll(Replaying(tape), front);
      var v := if |front| < |tape| then tape[|front|] else 0;
      assert Events(tags, before + [v]) == Events(front, before) + [TapeEvent(|front|, tags[|front|], v)];
    }
  }

  // ----- a generator and a recording of it -----

  // The recording has been read as far as the generator has been drawn from,
  // and both logs are the same prefix of it.
  ghost predicate Mirrors(g: EntropyTape, r: EntropyTape) {
    && g.Generate? && r.Replay?
    && g.log == r.log && g.events == r.events
    && r.cursor == |r.log| && r.log <= r.tape
  }

  // Drawing keeps the correspondence while the recording covers the generator's log.
  lemma DrawMirrors(g: EntropyTape, r: EntropyTape, tag: TapeLabel)
    requires Mirrors(g, r) && Draw(g, tag).0.log <= r.tape
    ensures Draw(g, tag).1 == Draw(r, tag).1
    ensures Mirrors(Draw(g, tag).0, Draw(r, tag).0)
  {
    var log' := Draw(g, tag).0.log;
    assert log'[|g.log|] == Draw(g, tag).1;
  }
}
