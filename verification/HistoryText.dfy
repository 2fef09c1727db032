// The text of recorded histories, letter by letter.
module HistoryText {
  import opened Base
  import opened Checker
  import opened History

  // ----- numbers -----

  lemma {:induction false} DecimalShortest(n: nat)
    ensures |Decimal(n)| > 0 && (Decimal(n)[0] == '0' <==> n == 0) && (n == 0 ==> Decimal(n) == "0")
  {
    if n >= 10 { DecimalShortest(n / 10); }
  }

  lemma {:induction false} ValueLeads(c: char, digits: string)
    requires IsDigit(c) && forall d :: d in digits ==> IsDigit(d)
    ensures forall d :: d in [c] + digits ==> IsDigit(d)
    ensures Value([c] + digits) == DigitValue(c) * Power(|digits|) + Value(digits)
    decreases |digits|
  {
    var all := [c] + digits;
    if digits == [] {
      assert all[..0] == [];
    } else {
      var n := |digits| - 1;
      assert digits[n] in digits && all[..n + 1] == [c] + digits[..n];
      ValueLeads(c, digits[..n]);
    }
  }

  function Power(k: nat): nat {
    if k == 0 then 1 else 10 * Power(k - 1)
  }

  // A string is read as a number exactly when it is digits, after a plus sign if
  // there is one, that stand for a number within the bound; and then as that one.
  lemma NumeralIff(s: string, max: nat, n: nat)
    ensures ParseNat(s, max) == Some(n) <==>
              exists digits: string :: (s == digits || s == "+" + digits) && IsNumeral(digits, n) && n <= max
  {
    var rest := if |s| > 1 && s[0] == '+' then s[1..] else s;
    assert |s| > 1 && s[0] == '+' ==> s == "+" + rest;
    if ParseNat(s, max) == Some(n) {
      forall c | c in rest ensures '0' <= c <= '9' {
        assert IsDigit(c);
      }
      assert IsNumeral(rest, n);
    }
    if digits: string :| (s == digits || s == "+" + digits) && IsNumeral(digits, n) && n <= max {
      assert digits[0] in digits && '+' !in digits;
      assert rest == digits;
    }
  }

  ghost predicate IsNumeral(digits: string, n: int) {
    digits != [] && (forall c :: c in digits ==> '0' <= c <= '9') && Value(digits) == n
  }

  // The text is digits, with a plus sign before them or without, for a number of
  // at most 64 bits.
  ghost predicate Tells(s: string, n: nat) {
    exists digits: string :: (s == digits || s == "+" + digits) && IsNumeral(digits, n) && n <= 0xFFFF_FFFF_FFFF_FFFF
  }

  // The text tells a signed number of at most 32 bits.
  ghost predicate TellsI32(s: string, i: int) {
    || (0 <= i <= 0x7FFF_FFFF && exists digits: string :: (s == digits || s == "+" + digits) && IsNumeral(digits, i))
    || (-0x8000_0000 <= i <= 0 && exists digits: string :: s == "-" + digits && IsNumeral(digits, -i))
  }

  lemma TellsIff(s: string, n: nat)
    ensures ParseNat(s, U64_MAX) == Some(n) <==> Tells(s, n)
  {
    NumeralIff(s, U64_MAX, n);
  }

  lemma DigitsIff(digits: string, max: nat, n: nat)
    ensures ParseDigits(digits, max) == Some(n) <==> IsNumeral(digits, n) && n <= max
  {
    if ParseDigits(digits, max) == Some(n) {
      forall c | c in digits ensures '0' <= c <= '9' {
        assert IsDigit(c);
      }
    }
  }

  lemma FirstIsDigit(digits: string, n: int)
    requires IsNumeral(digits, n)
    ensures '0' <= digits[0] <= '9'
  {
    assert digits[0] in digits;
  }

  lemma NegativeIff(s: string, i: int)
    requires |s| > 1 && s[0] == '-'
    ensures ParseI32(s) == Some(i) <==> TellsI32(s, i)
  {
    var rest := s[1..];
    assert s == "-" + rest;
    if i <= 0 { DigitsIff(rest, I32_MAX + 1, -i); }
    forall digits: string, n | IsNumeral(digits, n) ensures s != digits && s != "+" + digits {
      FirstIsDigit(digits, n);
    }
    forall digits: string | s == "-" + digits ensures digits == rest {
      assert digits == ("-" + digits)[1..];
    }
  }

  lemma TellsI32Iff(s: string, i: int)
    ensures ParseI32(s) == Some(i) <==> TellsI32(s, i)
  {
    if |s| > 1 && s[0] == '-' {
      NegativeIff(s, i);
    } else {
      if i >= 0 { NumeralIff(s, I32_MAX, i); }
      forall digits: string, n | IsNumeral(digits, n) ensures s != "-" + digits {
        FirstIsDigit(digits, n);
      }
    }
  }

  // ----- splitting undoes joining, and joining splitting -----

  lemma {:induction false} JoinGrow(c: char, parts: seq<string>, sep: char)
    requires parts != []
    ensures Join(Grow(c, parts), sep) == [c] + Join(parts, sep)
  {
    var grown := Grow(c, parts);
    if |parts| > 1 {
      assert grown[1..] == parts[1..];
      MoveAcross([c], parts[0], [sep] + Join(parts[1..], sep));
      MoveAcross(parts[0], [sep], Join(parts[1..], sep));
      MoveAcross([c] + parts[0], [sep], Join(parts[1..], sep));
    }
  }

  // With the fact that no part holds the separator, this tells what the parts are.
  lemma {:induction false} JoinSplit(s: string, sep: char)
    ensures Join(Split(s, sep), sep) == s && forall k :: 0 <= k < |Split(s, sep)| ==> sep !in Split(s, sep)[k]
    decreases |s|
  {
    if s != [] {
      JoinSplit(s[1..], sep);
      var rest := Split(s[1..], sep);
      if s[0] == sep {
        assert ([[]] + rest)[1..] == rest;
      } else {
        JoinGrow(s[0], rest, sep);
      }
    }
  }

  // ----- lines -----

  // The fields of a printed operation, between colons. Only the text of a log
  // operation can hold more of them.
  lemma LineIs(op: RecordedOp)
    ensures Split(ToHistoryLine(op), ':') ==
              match op
              case KvPut(id, _, v, invoke, complete) =>
                ["kv", Decimal(id), "put", DecimalInt(v), "ok", Decimal(invoke), Decimal(complete)]
              case KvGet(id, _, found, invoke, complete) =>
                ["kv", Decimal(id), "get", if found.Some? then DecimalInt(found.value) else "none", "value",
                 Decimal(invoke), Decimal(complete)]
              case LogAppend(id, _, text, index, invoke, complete) =>
                ["log", Decimal(id), "append"] + Split(text, ':')
                + ["index", Decimal(index), Decimal(invoke), Decimal(complete)]
              case LogRead(id, _, entries, invoke, complete) =>
                ["log", Decimal(id), "read"] + Split(Join(entries, ','), ':')
                + ["entries", Decimal(invoke), Decimal(complete)]
  {
    LineSplits(op);
    FieldsPlain(op);
    var f := Fields(op);
    if op.KvPut? || op.KvGet? {
      assert Split(f[3], ':') == [f[3]];
      assert f[..3] + [f[3]] + f[4..] == f;
    } else if op.LogAppend? {
      assert f[..3] == ["log", Decimal(op.id), "append"];
    } else {
      assert f[..3] == ["log", Decimal(op.id), "read"];
    }
  }

  // ----- what the decoders take -----

  // The record's number and times, as the fields tell them.
  ghost predicate Stamped<I, O>(id: string, invoke: string, complete: string, r: OpRecord<I, O>) {
    && Tells(id, r.id) && Tells(invoke, r.invoke) && r.complete.Some? && Tells(complete, r.complete.value)
    && r.process == 3
  }

  // A line is taken for a key-value operation exactly when it has seven fields
  // that read as a put of a number or as a get; a get whose value does not read as
  // a number found nothing.
  lemma KvLineIff(line: string, r: KvRecord)
    ensures ParseKvLine(line) == Some(r) <==>
              var f := Split(line, ':');
              && |f| == 7 && f[0] == "kv" && Stamped(f[1], f[5], f[6], r)
              && (|| (f[2] == "put" && r.input.Put? && TellsI32(f[3], r.input.value)
                      && r.output == Some(M.SingleKeyOutput.Done))
                  || (f[2] == "get" && r.input.Get? && r.output.Some? && r.output.value.Found?
                      && match r.output.value.value
                         case Some(v) => f[3] != "none" && TellsI32(f[3], v)
                         case None => f[3] == "none" || forall v :: !TellsI32(f[3], v)))
  {
    var f := Split(line, ':');
    if |f| == 7 && f[0] == "kv" {
      StampIff(f[1], f[5], f[6], r);
      forall v ensures ParseI32(f[3]) == Some(v) <==> TellsI32(f[3], v) {
        TellsI32Iff(f[3], v);
      }
    }
  }

  lemma StampIff<I, O>(id: string, invoke: string, complete: string, r: OpRecord<I, O>)
    ensures Stamped(id, invoke, complete, r) <==>
              && ParseNat(id, U64_MAX) == Some(r.id) && ParseNat(invoke, U64_MAX) == Some(r.invoke)
              && r.complete.Some? && ParseNat(complete, U64_MAX) == Some(r.complete.value) && r.process == 3
  {
    TellsIff(id, r.id);
    TellsIff(invoke, r.invoke);
    if r.complete.Some? { TellsIff(complete, r.complete.value); }
  }

  // A line is taken for a log operation exactly when it reads as an append of a
  // text at an index, in eight fields, or as a read of entries, in seven.
  lemma LogLineIff(line: string, r: LogRecord)
    ensures ParseLogLine(line) == Some(r) <==>
              var f := Split(line, ':');
              || (&& |f| == 8 && f[0] == "log" && f[2] == "append" && Stamped(f[1], f[6], f[7], r)
                  && r.input == M.AppendLogInput.Append(f[3])
                  && r.output.Some? && r.output.value.Index? && Tells(f[5], r.output.value.index))
              || (&& |f| == 7 && f[0] == "log" && f[2] == "read" && Stamped(f[1], f[5], f[6], r)
                  && r.input == M.AppendLogInput.ReadAll
                  && r.output == Some(M.AppendLogOutput.Entries(if f[3] == "" then [] else Split(f[3], ','))))
  {
    var f := Split(line, ':');
    if |f| == 8 {
      StampIff(f[1], f[6], f[7], r);
      if r.output.Some? && r.output.value.Index? { TellsIff(f[5], r.output.value.index); }
    } else if |f| == 7 {
      StampIff(f[1], f[5], f[6], r);
    }
  }
}
