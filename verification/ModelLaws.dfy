// How the shipped sequential specifications relate to one another and to plain
// sequences.
module ModelLaws {
  import opened Base
  import opened Models

  // The outputs and the final state of a sequential run.
  function RunModel<S, I, O>(step: (S, I) -> Option<(S, O)>, s: S, inputs: seq<I>): Option<(S, seq<O>)> {
    if inputs == [] then Some((s, []))
    else
      match step(s, inputs[0])
      case None => None
      case Some(next) =>
        match RunModel(step, next.0, inputs[1..])
        case None => None
        case Some(rest) => Some((rest.0, [next.1] + rest.1))
  }

  // ----- a key holds what was put last -----

  // The value the last put of the inputs leaves, or the one there before.
  function LastPut<T>(before: Option<T>, inputs: seq<SingleKeyInput<T>>): Option<T> {
    if inputs == [] then before
    else
      var last := inputs[|inputs| - 1];
      if last.Put? then Some(last.value) else LastPut(before, inputs[..|inputs| - 1])
  }

  lemma {:induction false} LastPutSplits<T>(before: Option<T>, first: SingleKeyInput<T>, rest: seq<SingleKeyInput<T>>)
    ensures LastPut(before, [first] + rest) == LastPut(if first.Put? then Some(first.value) else before, rest)
    decreases |rest|
  {
    var all := [first] + rest;
    if rest == [] {
      assert all[..0] == [];
    } else {
      assert all[..|rest|] == [first] + rest[..|rest| - 1];
      LastPutSplits(before, first, rest[..|rest| - 1]);
    }
  }

  // Every get finds what the last put before it left, or else the initial value,
  // and every put is done.
  lemma {:induction false} KeyHoldsLastPut<T>(init: Option<T>, s: Option<T>, inputs: seq<SingleKeyInput<T>>)
    ensures SingleKeyKv(init).init == init
    ensures var out := RunModel(SingleKeyKv(init).step, s, inputs);
            && out.Some? && |out.value.1| == |inputs| && out.value.0 == LastPut(s, inputs)
            && forall k :: 0 <= k < |inputs| ==>
                 out.value.1[k] == if inputs[k].Put? then Done else Found(LastPut(s, inputs[..k]))
    decreases |inputs|
  {
    if inputs != [] {
      var first, rest := inputs[0], inputs[1..];
      var s' := if first.Put? then Some(first.value) else s;
      assert inputs == [first] + rest;
      KeyHoldsLastPut(init, s', rest);
      LastPutSplits(s, first, rest);
      forall k | 0 < k < |inputs| ensures LastPut(s, inputs[..k]) == LastPut(s', rest[..k - 1]) {
        assert inputs[..k] == [first] + rest[..k - 1];
        LastPutSplits(s, first, rest[..k - 1]);
      }
    }
  }

  // ----- a register is a key that always has a value -----

  function AsKey<T>(input: RegisterInput<T>): SingleKeyInput<T> {
    match input
    case Read => Get
    case Write(v) => Put(v)
  }

  function AsKeyOutput<T>(output: RegisterOutput<T>): SingleKeyOutput<T> {
    match output
    case Value(v) => Found(Some(v))
    case Ok => Done
  }

  function MapSeq<A, B>(s: seq<A>, f: A -> B): seq<B> {
    if s == [] then [] else [f(s[0])] + MapSeq(s[1..], f)
  }

  lemma {:induction false} RegisterIsKey<T>(init: T, s: T, inputs: seq<RegisterInput<T>>)
    ensures var reg := RunModel(Register(init).step, s, inputs);
            var key := RunModel(SingleKeyKv<T>(None).step, Some(s), MapSeq(inputs, i => AsKey(i)));
            reg.Some? && key == Some((Some(reg.value.0), MapSeq(reg.value.1, o => AsKeyOutput(o))))
    decreases |inputs|
  {
    if inputs != [] {
      var next := Register(init).step(s, inputs[0]).value;
      RegisterIsKey(init, next.0, inputs[1..]);
      var rest := RunModel(Register(init).step, next.0, inputs[1..]).value;
      assert ([next.1] + rest.1)[1..] == rest.1;
      assert MapSeq(inputs, i => AsKey(i))[1..] == MapSeq(inputs[1..], i => AsKey(i));
    }
  }

  // ----- a store of many keys is one store for each -----

  function KeyOf<K, V>(input: KvInput<K, V>): K {
    input.key
  }

  function ForKey<K(==), V>(inputs: seq<KvInput<K, V>>, k: K): seq<SingleKeyInput<V>> {
    if inputs == [] then []
    else
      var rest := ForKey(inputs[1..], k);
      if KeyOf(inputs[0]) != k then rest
      else [if inputs[0].GetKey? then Get else Put(inputs[0].value)] + rest
  }

  function OutputsForKey<K(==), V>(inputs: seq<KvInput<K, V>>, outputs: seq<KvOutput<V>>, k: K): seq<SingleKeyOutput<V>>
    requires |inputs| == |outputs|
  {
    if inputs == [] then []
    else
      var rest := OutputsForKey(inputs[1..], outputs[1..], k);
      if KeyOf(inputs[0]) != k then rest
      else [if outputs[0].FoundKey? then Found(outputs[0].value) else Done] + rest
  }

  function AtKey<K, V>(m: map<K, V>, k: K): Option<V> {
    if k in m then Some(m[k]) else None
  }

  lemma {:induction false} MultiKeyIsPerKey<K, V>(init: map<K, V>, s: map<K, V>, inputs: seq<KvInput<K, V>>, k: K)
    ensures var all := RunModel(MultiKeyKv(init).step, s, inputs);
            && all.Some? && |all.value.1| == |inputs|
            && RunModel(SingleKeyKv<V>(None).step, AtKey(s, k), ForKey(inputs, k))
               == Some((AtKey(all.value.0, k), OutputsForKey(inputs, all.value.1, k)))
    decreases |inputs|
  {
    if inputs != [] {
      var next := MultiKeyKv(init).step(s, inputs[0]).value;
      MultiKeyIsPerKey(init, next.0, inputs[1..], k);
      var rest := RunModel(MultiKeyKv(init).step, next.0, inputs[1..]).value;
      assert ([next.1] + rest.1)[1..] == rest.1;
      var mine := ForKey(inputs[1..], k);
      if KeyOf(inputs[0]) == k {
        assert ForKey(inputs, k)[1..] == mine;
      }
    }
  }

  // ----- a log returns what was appended, in order -----

  function Appends<T>(values: seq<T>): seq<AppendLogInput<T>> {
    seq(|values|, k requires 0 <= k < |values| => AppendLogInput<T>.Append(values[k]))
  }

  lemma {:induction false} LogKeepsAppends<T>(init: seq<T>, s: seq<T>, values: seq<T>)
    ensures var out := RunModel(AppendOnlyLog(init).step, s, Appends(values) + [ReadAll]);
            && out.Some? && out.value.0 == s + values && |out.value.1| == |values| + 1
            && (forall k :: 0 <= k < |values| ==> out.value.1[k] == Index(|s| + k))
            && out.value.1[|values|] == Entries(s + values)
    decreases |values|
  {
    var inputs := Appends(values) + [ReadAll];
    if values == [] {
      assert inputs == [ReadAll] && inputs[1..] == [];
      assert s + values == s;
    } else {
      LogKeepsAppends(init, s + [values[0]], values[1..]);
      assert inputs[1..] == Appends(values[1..]) + [ReadAll];
      assert s + [values[0]] + values[1..] == s + values;
    }
  }
}
