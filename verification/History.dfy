// The text form of recorded histories: every operation becomes one line, and the
// checkers' inputs are decoded from the lines.
module History {
  import opened Base
  import opened Checker
  import M = Models
  import P = Protocols

  const I32_MAX := 0x7FFF_FFFF
  const HISTORY_PROCESS: nat := 3

  // ----- decimal numbers -----

  predicate IsDigit(c: char) {
    '0' <= c <= '9'
  }

  function DigitChar(d: nat): char
    requires d < 10
  {
    ('0' as int + d) as char
  }

  function Decimal(n: nat): string {
    if n < 10 then [DigitChar(n)] else Decimal(n / 10) + [DigitChar(n % 10)]
  }

  function DecimalInt(i: int): string {
    if i < 0 then "-" + Decimal(-i) else Decimal(i)
  }

  function DigitValue(c: char): nat
    requires IsDigit(c)
  {
    c as int - '0' as int
  }

  function Value(digits: string): nat
    requires forall c :: c in digits ==> IsDigit(c)
  {
    if digits == [] then 0
    else
      assert digits[|digits|-1] in digits;
      10 * Value(digits[..|digits|-1]) + DigitValue(digits[|digits|-1])
  }

  function ParseDigits(s: string, max: nat): Option<nat> {
    if s == [] || (exists c :: c in s && !IsDigit(c)) || Value(s) > max then None else Some(Value(s))
  }

  // The original's `str::parse` for unsigned integers: an optional plus sign.
  function ParseNat(s: string, max: nat): Option<nat> {
    ParseDigits(if |s| > 1 && s[0] == '+' then s[1..] else s, max)
  }

  function ParseI32(s: string): Option<int> {
    if |s| > 1 && s[0] == '-' then
      match ParseDigits(s[1..], I32_MAX + 1)
      case None => None
      case Some(n) => Some(0 - n as int)
    else
      match ParseNat(s, I32_MAX)
      case None => None
      case Some(n) => Some(n)
  }

  lemma {:induction false} DecimalValue(n: nat)
    ensures Decimal(n) != [] && (forall c :: c in Decimal(n) ==> IsDigit(c)) && Value(Decimal(n)) == n
  {
    if n >= 10 {
      DecimalValue(n / 10);
      var s := Decimal(n);
      assert s[..|s|-1] == Decimal(n / 10) && s[|s|-1] == DigitChar(n % 10);
    } else {
      assert Decimal(n)[..0] == [];
    }
  }

  lemma DecimalParses(n: nat, max: nat)
    requires n <= max
    ensures ParseDigits(Decimal(n), max) == Some(n) && ParseNat(Decimal(n), max) == Some(n)
  {
    DecimalValue(n);
    assert Decimal(n)[0] in Decimal(n);
  }

  predicate IsI32(i: int) {
    -(I32_MAX + 1) <= i <= I32_MAX
  }

  lemma NegativeParses(n: int)
    requires 0 < n <= I32_MAX + 1
    ensures ParseI32(DecimalInt(-n)) == Some(-n)
  {
    var s := DecimalInt(-n);
    DecimalParses(n, I32_MAX + 1);
    DecimalValue(n);
    assert s[0] == '-' && s[1..] == Decimal(n) && |s| > 1;
  }

  lemma NonNegativeParses(n: int)
    requires 0 <= n <= I32_MAX
    ensures ParseI32(DecimalInt(n)) == Some(n)
  {
    DecimalParses(n, I32_MAX);
    DecimalValue(n);
    assert Decimal(n)[0] in Decimal(n);
  }

  lemma DecimalIntParses(i: int)
    requires IsI32(i)
    ensures ParseI32(DecimalInt(i)) == Some(i)
  {
    if i < 0 { NegativeParses(-i); } else { NonNegativeParses(i); }
  }

  // ----- splitting and joining -----

  // Put one character in front of the first part.
  function Grow(c: char, parts: seq<string>): seq<string>
    requires parts != []
  {
    [[c] + parts[0]] + parts[1..]
  }

  lemma GrowFirst(c: char, parts: seq<string>, more: seq<string>)
    requires parts != []
    ensures Grow(c, parts + more) == Grow(c, parts) + more
    ensures [[]] + (parts + more) == [[]] + parts + more
  {
  }

  function Split(s: string, sep: char): (parts: seq<string>)
    ensures parts != []
    ensures sep !in s ==> parts == [s]
    ensures |parts| == 1 ==> sep !in s
    ensures forall k :: 0 <= k < |parts| ==> sep !in parts[k]
  {
    if s == [] then [[]]
    else
      var rest := Split(s[1..], sep);
      assert sep !in s ==> s[1..] == rest[0] && [s[0]] + rest[0] == s;
      if s[0] == sep then [[]] + rest else Grow(s[0], rest)
  }

  function Join(parts: seq<string>, sep: char): string {
    if parts == [] then [] else if |parts| == 1 then parts[0] else parts[0] + [sep] + Join(parts[1..], sep)
  }

  function SplitEach(parts: seq<string>, sep: char): seq<string> {
    if parts == [] then [] else Split(parts[0], sep) + SplitEach(parts[1..], sep)
  }

  lemma {:induction false} SplitAtSeparator(a: string, b: string, sep: char)
    ensures Split(a + [sep] + b, sep) == Split(a, sep) + Split(b, sep)
    decreases |a|
  {
    var s := a + [sep] + b;
    if a == [] {
      assert s[1..] == b;
    } else {
      assert s[1..] == a[1..] + [sep] + b;
      SplitAtSeparator(a[1..], b, sep);
      GrowFirst(a[0], Split(a[1..], sep), Split(b, sep));
    }
  }

  lemma {:induction false} SplitJoin(parts: seq<string>, sep: char)
    requires parts != []
    ensures Split(Join(parts, sep), sep) == SplitEach(parts, sep)
    decreases |parts|
  {
    if |parts| == 1 {
      assert SplitEach(parts[1..], sep) == [];
    } else {
      SplitJoin(parts[1..], sep);
      SplitAtSeparator(parts[0], Join(parts[1..], sep), sep);
    }
  }

  lemma {:induction false} SplitEachPlain(parts: seq<string>, sep: char)
    requires forall k :: 0 <= k < |parts| ==> sep !in parts[k]
    ensures SplitEach(parts, sep) == parts
    decreases |parts|
  {
    if parts != [] {
      SplitEachPlain(parts[1..], sep);
    }
  }

  lemma {:induction false} SplitEachOdd(left: seq<string>, odd: string, right: seq<string>, sep: char)
    requires forall k :: 0 <= k < |left| ==> sep !in left[k]
    requires forall k :: 0 <= k < |right| ==> sep !in right[k]
    ensures SplitEach(left + [odd] + right, sep) == left + Split(odd, sep) + right
    decreases |left|
  {
    var all := left + [odd] + right;
    if left == [] {
      assert all[1..] == right;
      SplitEachPlain(right, sep);
    } else {
      assert all[1..] == left[1..] + [odd] + right;
      SplitEachOdd(left[1..], odd, right, sep);
    }
  }

  lemma {:induction false} JoinContains(parts: seq<string>, sep: char, c: char)
    requires c != sep
    ensures c in Join(parts, sep) <==> exists k :: 0 <= k < |parts| && c in parts[k]
    decreases |parts|
  {
    if |parts| == 1 {
      assert c in parts[0] <==> c in Join(parts, sep);
    } else if |parts| > 1 {
      JoinContains(parts[1..], sep, c);
      assert forall k :: 0 < k < |parts| ==> parts[k] == parts[1..][k-1];
      assert forall k :: 0 <= k < |parts[1..]| ==> parts[1..][k] == parts[k+1];
    }
  }

  // ----- recorded operations and their lines -----

  datatype RecordedOp =
    | KvPut(id: nat, process: nat, value: int, invoke: nat, complete: nat)
    | KvGet(id: nat, process: nat, found: Option<int>, invoke: nat, complete: nat)
    | LogAppend(id: nat, process: nat, text: string, index: nat, invoke: nat, complete: nat)
    | LogRead(id: nat, process: nat, entries: seq<string>, invoke: nat, complete: nat)

  type KvRecord = OpRecord<M.SingleKeyInput<int>, M.SingleKeyOutput<int>>
  type LogRecord = OpRecord<M.AppendLogInput<string>, M.AppendLogOutput<string>>

  // The fields hold what the original's machine types can hold.
  predicate InRange(op: RecordedOp) {
    && op.id <= U64_MAX && op.invoke <= U64_MAX && op.complete <= U64_MAX
    && match op
       case KvPut(_, _, v, _, _) => IsI32(v)
       case KvGet(_, _, found, _, _) => found.Some? ==> IsI32(found.value)
       case LogAppend(_, _, _, index, _, _) => index <= U64_MAX
       case LogRead(_, _, _, _, _) => true
  }

  function KvValueMsg(found: Option<int>): string {
    if found.None? then "none" else DecimalInt(found.value)
  }

  function Fields(op: RecordedOp): seq<string> {
    match op
    case KvPut(id, _, v, invoke, complete) =>
      ["kv", Decimal(id), "put", DecimalInt(v), "ok", Decimal(invoke), Decimal(complete)]
    case KvGet(id, _, found, invoke, complete) =>
      ["kv", Decimal(id), "get", KvValueMsg(found), "value", Decimal(invoke), Decimal(complete)]
    case LogAppend(id, _, text, index, invoke, complete) =>
      ["log", Decimal(id), "append", text, "index", Decimal(index), Decimal(invoke), Decimal(complete)]
    case LogRead(id, _, entries, invoke, complete) =>
      ["log", Decimal(id), "read", Join(entries, ','), "entries", Decimal(invoke), Decimal(complete)]
  }

  function ToHistoryLine(op: RecordedOp): string {
    Join(Fields(op), ':')
  }

  function Lines(ops: seq<RecordedOp>): seq<string> {
    seq(|ops|, k requires 0 <= k < |ops| => ToHistoryLine(ops[k]))
  }

  // ----- decoding -----

  function ParseOptionalI32(s: string): Option<int> {
    if s == "none" then None else ParseI32(s)
  }

  function ParseEntries(s: string): seq<string> {
    if s == [] then [] else Split(s, ',')
  }

  function ParseKvFields(parts: seq<string>): Option<KvRecord> {
    if |parts| != 7 || parts[0] != "kv" then None
    else
      var id, invoke, complete :=
        ParseNat(parts[1], U64_MAX), ParseNat(parts[5], U64_MAX), ParseNat(parts[6], U64_MAX);
      if id.None? || invoke.None? || complete.None? then None
      else if parts[2] == "put" then
        match ParseI32(parts[3])
        case None => None
        case Some(v) => Some(OpRecord(id.value, HISTORY_PROCESS, invoke.value, Some(complete.value),
                                      M.SingleKeyInput.Put(v), Some(M.SingleKeyOutput.Done)))
      else if parts[2] == "get" then
        Some(OpRecord(id.value, HISTORY_PROCESS, invoke.value, Some(complete.value),
                      M.SingleKeyInput.Get, Some(M.SingleKeyOutput.Found(ParseOptionalI32(parts[3])))))
      else None
  }

  function ParseLogFields(parts: seq<string>): Option<LogRecord> {
    if |parts| < 3 || parts[0] != "log" || ParseNat(parts[1], U64_MAX).None? then None
    else
      var id := ParseNat(parts[1], U64_MAX).value;
      if parts[2] == "append" && |parts| == 8 then
        var index, invoke, complete :=
          ParseNat(parts[5], U64_MAX), ParseNat(parts[6], U64_MAX), ParseNat(parts[7], U64_MAX);
        if index.None? || invoke.None? || complete.None? then None
        else Some(OpRecord(id, HISTORY_PROCESS, invoke.value, Some(complete.value),
                           M.AppendLogInput.Append(parts[3]), Some(M.AppendLogOutput.Index(index.value))))
      else if parts[2] == "read" && |parts| == 7 then
        var invoke, complete := ParseNat(parts[5], U64_MAX), ParseNat(parts[6], U64_MAX);
        if invoke.None? || complete.None? then None
        else Some(OpRecord(id, HISTORY_PROCESS, invoke.value, Some(complete.value),
                           M.AppendLogInput.ReadAll, Some(M.AppendLogOutput.Entries(ParseEntries(parts[3])))))
      else None
  }

  function ParseKvLine(line: string): Option<KvRecord> {
    ParseKvFields(Split(line, ':'))
  }

  function ParseLogLine(line: string): Option<LogRecord> {
    ParseLogFields(Split(line, ':'))
  }

  function Collect<T, U>(items: seq<T>, f: T -> Option<U>): seq<U> {
    if items == [] then [] else
      match f(items[0])
      case None => Collect(items[1..], f)
      case Some(u) => [u] + Collect(items[1..], f)
  }

  function SingleKeyKvHistory(lines: seq<string>): seq<KvRecord> {
    Collect(lines, ParseKvLine)
  }

  function AppendLogHistory(lines: seq<string>): seq<LogRecord> {
    Collect(lines, ParseLogLine)
  }

  // ----- what the recorded operations mean to the checkers -----

  function AsKv(op: RecordedOp): Option<KvRecord> {
    match op
    case KvPut(id, _, v, invoke, complete) =>
      Some(OpRecord(id, HISTORY_PROCESS, invoke, Some(complete), M.SingleKeyInput.Put(v), Some(M.SingleKeyOutput.Done)))
    case KvGet(id, _, found, invoke, complete) =>
      Some(OpRecord(id, HISTORY_PROCESS, invoke, Some(complete), M.SingleKeyInput.Get,
                    Some(M.SingleKeyOutput.Found(found))))
    case _ => None
  }

  function AsLog(op: RecordedOp): Option<LogRecord> {
    match op
    case LogAppend(id, _, text, index, invoke, complete) =>
      Some(OpRecord(id, HISTORY_PROCESS, invoke, Some(complete), M.AppendLogInput.Append(text),
                    Some(M.AppendLogOutput.Index(index))))
    case LogRead(id, _, entries, invoke, complete) =>
      Some(OpRecord(id, HISTORY_PROCESS, invoke, Some(complete), M.AppendLogInput.ReadAll,
                    Some(M.AppendLogOutput.Entries(entries))))
    case _ => None
  }

  // What a log operation may hold for its line to be read back: no colon, and
  // for a read no comma and not the one entry that joins to nothing.
  predicate Encodable(op: RecordedOp) {
    match op
    case LogAppend(_, _, text, _, _, _) => ':' !in text
    case LogRead(_, _, entries, _, _) =>
      entries != [""] && forall k :: 0 <= k < |entries| ==> ':' !in entries[k] && ',' !in entries[k]
    case _ => true
  }

  lemma DecimalPlain(n: nat, sep: char)
    requires !IsDigit(sep)
    ensures sep !in Decimal(n)
  {
    DecimalValue(n);
  }

  lemma FieldsPlain(op: RecordedOp)
    ensures forall k :: 0 <= k < |Fields(op)| && (k == 3 ==> op.KvPut? || op.KvGet?) ==> ':' !in Fields(op)[k]
  {
    DecimalPlain(op.id, ':');
    DecimalPlain(op.invoke, ':');
    DecimalPlain(op.complete, ':');
    match op
    case KvPut(_, _, v, _, _) => DecimalPlain(if v < 0 then -v else v, ':');
    case KvGet(_, _, found, _, _) =>
      if found.Some? { DecimalPlain(if found.value < 0 then -found.value else found.value, ':'); }
    case LogAppend(_, _, _, index, _, _) => DecimalPlain(index, ':');
    case LogRead(_, _, _, _, _) =>
  }

  // The fields a decoder gets back: only the fourth can come apart.
  lemma LineSplits(op: RecordedOp)
    ensures var f := Fields(op);
            Split(ToHistoryLine(op), ':') == f[..3] + Split(f[3], ':') + f[4..]
  {
    var f := Fields(op);
    FieldsPlain(op);
    SplitJoin(f, ':');
    assert f == f[..3] + [f[3]] + f[4..];
    SplitEachOdd(f[..3], f[3], f[4..], ':');
  }

  lemma NumbersParse(op: RecordedOp)
    requires InRange(op)
    ensures ParseNat(Decimal(op.id), U64_MAX) == Some(op.id)
    ensures ParseNat(Decimal(op.invoke), U64_MAX) == Some(op.invoke)
    ensures ParseNat(Decimal(op.complete), U64_MAX) == Some(op.complete)
  {
    DecimalParses(op.id, U64_MAX);
    DecimalParses(op.invoke, U64_MAX);
    DecimalParses(op.complete, U64_MAX);
  }

  lemma NotNone(i: int)
    ensures DecimalInt(i) != "none"
  {
    if i >= 0 {
      DecimalValue(i);
      assert Decimal(i)[0] in Decimal(i);
      assert IsDigit(DecimalInt(i)[0]) && "none"[0] == 'n';
    } else {
      assert DecimalInt(i)[0] == '-' && "none"[0] == 'n';
    }
  }

  // A key-value operation always comes back; nothing else is taken for one.
  lemma KvLineRoundTrip(op: RecordedOp)
    requires InRange(op)
    ensures ParseKvLine(ToHistoryLine(op)) == AsKv(op)
  {
    LineSplits(op);
    FieldsPlain(op);
    NumbersParse(op);
    var f := Fields(op);
    if op.KvPut? || op.KvGet? {
      assert ':' !in f[3];
      assert f[..3] + [f[3]] + f[4..] == f;
      if op.KvPut? {
        DecimalIntParses(op.value);
      } else if op.found.Some? {
        DecimalIntParses(op.found.value);
        NotNone(op.found.value);
      }
    }
  }

  lemma EntriesRoundTripIff(entries: seq<string>)
    ensures ParseEntries(Join(entries, ',')) == entries
       <==> entries != [""] && forall k :: 0 <= k < |entries| ==> ',' !in entries[k]
  {
    if entries != [] && Join(entries, ',') != [] {
      SplitJoin(entries, ',');
      if forall k :: 0 <= k < |entries| ==> ',' !in entries[k] {
        SplitEachPlain(entries, ',');
      }
    }
  }

  lemma AppendLineRoundTripIff(op: RecordedOp)
    requires InRange(op) && op.LogAppend?
    ensures ParseLogLine(ToHistoryLine(op)) == AsLog(op) <==> ':' !in op.text
  {
    LineSplits(op);
    NumbersParse(op);
    DecimalParses(op.index, U64_MAX);
    var f := Fields(op);
    var pieces := Split(op.text, ':');
    assert ':' !in op.text ==> f[..3] + pieces + f[4..] == f;
  }

  lemma ReadLineRoundTripIff(op: RecordedOp)
    requires InRange(op) && op.LogRead?
    ensures ParseLogLine(ToHistoryLine(op)) == AsLog(op)
       <==> ':' !in Join(op.entries, ',') && ParseEntries(Join(op.entries, ',')) == op.entries
  {
    LineSplits(op);
    NumbersParse(op);
    var f := Fields(op);
    var pieces := Split(f[3], ':');
    assert ':' !in f[3] ==> f[..3] + pieces + f[4..] == f;
  }

  // A log operation comes back exactly when its strings are free of separators.
  lemma LogLineRoundTripIff(op: RecordedOp)
    requires InRange(op)
    ensures AsLog(op).None? ==> ParseLogLine(ToHistoryLine(op)).None?
    ensures AsLog(op).Some? ==> (ParseLogLine(ToHistoryLine(op)) == AsLog(op) <==> Encodable(op))
  {
    match op
    case LogAppend(_, _, _, _, _, _) => AppendLineRoundTripIff(op);
    case LogRead(_, _, entries, _, _) =>
      ReadLineRoundTripIff(op);
      EntriesRoundTripIff(entries);
      JoinContains(entries, ',', ':');
    case _ => LineSplits(op);
  }

  // ----- whole histories -----

  function KvRecords(ops: seq<RecordedOp>): seq<KvRecord> {
    Collect(ops, AsKv)
  }

  function LogRecords(ops: seq<RecordedOp>): seq<LogRecord> {
    Collect(ops, AsLog)
  }

  // Decoding a mixed history as a key-value history yields its key-value
  // operations, in order, with nothing changed but the process.
  lemma {:induction false} KvRoundTrip(ops: seq<RecordedOp>)
    requires forall op :: op in ops ==> InRange(op)
    ensures SingleKeyKvHistory(Lines(ops)) == KvRecords(ops)
    decreases |ops|
  {
    if ops != [] {
      assert Lines(ops)[1..] == Lines(ops[1..]);
      KvLineRoundTrip(ops[0]);
      KvRoundTrip(ops[1..]);
    }
  }

  lemma {:induction false} NoMoreThanRecorded(ops: seq<RecordedOp>)
    requires forall op :: op in ops ==> InRange(op)
    ensures |AppendLogHistory(Lines(ops))| <= |LogRecords(ops)|
    decreases |ops|
  {
    if ops != [] {
      assert Lines(ops)[1..] == Lines(ops[1..]);
      LogLineRoundTripIff(ops[0]);
      NoMoreThanRecorded(ops[1..]);
    }
  }

  // Decoding it as a log history yields its log operations exactly when every
  // one of them is encodable: one bad string and the history is another one.
  lemma {:induction false} LogRoundTripIff(ops: seq<RecordedOp>)
    requires forall op :: op in ops ==> InRange(op)
    ensures AppendLogHistory(Lines(ops)) == LogRecords(ops) <==> forall op :: op in ops ==> Encodable(op)
    decreases |ops|
  {
    if ops != [] {
      var rest := ops[1..];
      assert Lines(ops)[1..] == Lines(rest);
      assert forall op :: op in ops <==> op == ops[0] || op in rest;
      LogLineRoundTripIff(ops[0]);
      LogRoundTripIff(rest);
      NoMoreThanRecorded(rest);
      var got, all := AppendLogHistory(Lines(ops)), LogRecords(ops);
      if AsLog(ops[0]).Some? && ParseLogLine(ToHistoryLine(ops[0])).Some? {
        assert got[0] == ParseLogLine(ToHistoryLine(ops[0])).value && all[0] == AsLog(ops[0]).value;
        assert got[1..] == AppendLogHistory(Lines(rest)) && all[1..] == LogRecords(rest);
      }
    }
  }

  // ----- the protocol clients' histories -----

  function FromClient(op: P.ClientOp, id: nat): RecordedOp {
    match op
    case DidPut(v, invoke, complete) => KvPut(id, P.CLIENT, v, invoke, complete)
    case DidGet(found, invoke, complete) => KvGet(id, P.CLIENT, found, invoke, complete)
  }

  function FromClients(ops: seq<P.ClientOp>): seq<RecordedOp> {
    seq(|ops|, k requires 0 <= k < |ops| => FromClient(ops[k], k + 1))
  }

  lemma {:induction false} CollectAll<T, U>(items: seq<T>, f: T -> Option<U>, out: seq<U>)
    requires |items| == |out| && forall k :: 0 <= k < |items| ==> f(items[k]) == Some(out[k])
    ensures Collect(items, f) == out
    decreases |items|
  {
    if items != [] {
      CollectAll(items[1..], f, out[1..]);
    }
  }

  // What the checker decodes from a client's printed history is what it recorded.
  lemma CheckerSeesClientHistory(ops: seq<P.ClientOp>)
    requires forall k :: 0 <= k < |ops| ==> InRange(FromClient(ops[k], k + 1))
    ensures SingleKeyKvHistory(Lines(FromClients(ops))) == P.Recorded(ops)
  {
    KvRoundTrip(FromClients(ops));
    CollectAll(FromClients(ops), AsKv, P.Recorded(ops));
  }
}
