/** What the two parsers share: the delay read from a TIMING token, the
    dictionary lookup of `IdentifyMove` and `ValidateAndIdentifyMove`, the
    type and name taken from a key, and the text of
    `GenerateIntermediateCode`, which both write line for line alike (src/Compiler/Generated/Parser.cs and the backend's
    Compiler/Parser.cs). */
module MoveCode {
  import opened Base
  import opened Models
  import opened Lexer
  import CodeGen

  const SubstringMessage: string := "startIndex cannot be larger than length of string. (Parameter 'startIndex')"
  const FormatMessage: string := "Input string was not in a correct format."

  /** `int.Parse(val.Substring(2))`: the digits after `T:`. A text too short
      for `Substring` and one that is no digit string throw. */
  function TimingOf(val: string): (r: Result<int32>)
    ensures TimingVal(val) && DigitsValue(val[2..]) <= INT_MAX ==> r == Ok(DigitsValue(val[2..]))
    ensures TimingVal(val) && DigitsValue(val[2..]) > INT_MAX ==> r == Throw(ParseOverflowMessage)
  {
    if |val| < 2 then Throw(SubstringMessage)
    else if |val| == 2 || !AllDigits(val[2..]) then Throw(FormatMessage)
    else ParseInt(val[2..])
  }

  /** The first entry whose value equals `commands`. */
  function FirstMatch(moves: seq<(string, seq<string>)>, commands: seq<string>): (r: Option<(string, seq<string>)>)
    ensures r.Some? ==> r.value in moves && r.value.1 == commands
    ensures r.None? <==> forall i :: 0 <= i < |moves| ==> moves[i].1 != commands
  {
    if |moves| == 0 then None
    else if moves[0].1 == commands then Some(moves[0])
    else FirstMatch(moves[1..], commands)
  }

  /** The type and the name `IdentifyMove` derives from a key: the prefix
      removed and underscores made spaces. */
  function KeyType(key: string): Option<string> {
    if StartsWith(key, "FATALITY") then Some("FATALITY")
    else if StartsWith(key, "BRUTALITY") then Some("BRUTALITY")
    else None
  }

  function KeyName(key: string): Option<string> {
    if StartsWith(key, "FATALITY") then Some(Replace(Replace(key, "FATALITY_", ""), "_", " "))
    else if StartsWith(key, "BRUTALITY") then Some(Replace(Replace(key, "BRUTALITY_", ""), "_", " "))
    else None
  }

  /** A key made of a kind, an underscore and a rest in which that prefix
      does not recur gives the kind as its type and the rest, underscores
      made spaces, as its name ("FATALITY_SELF_DESTRUCT" gives FATALITY and
      "SELF DESTRUCT"). */
  lemma KeyParts(kind: string, rest: string)
    requires kind == "FATALITY" || kind == "BRUTALITY"
    requires forall i :: 0 <= i < |rest| ==> !StartsWith(rest[i..], kind + "_")
    ensures KeyType(kind + "_" + rest) == Some(kind)
    ensures KeyName(kind + "_" + rest) == Some(Replace(rest, "_", " "))
  {
    var pat, key := kind + "_", kind + "_" + rest;
    assert key == pat + rest;
    assert key[..|kind|] == kind;
    assert StartsWith(key, pat);
    assert key[|pat|..] == rest;
    ReplaceNone(rest, pat, "");
    assert Replace(key, pat, "") == "" + rest == rest;
    if kind == "FATALITY" {
      assert pat == "FATALITY_";
      assert StartsWith(key, "FATALITY");
    } else {
      assert pat == "BRUTALITY_";
      assert key[0] == 'B';
      assert |key| >= 8 ==> key[..8][0] == key[0];
      assert !StartsWith(key, "FATALITY");
    }
  }

  /** A string in which `pat` does not start anywhere is left as it is. */
  lemma {:induction false} ReplaceNone(s: string, pat: string, rep: string)
    requires |pat| > 0 && forall i :: 0 <= i < |s| ==> !StartsWith(s[i..], pat)
    ensures Replace(s, pat, rep) == s
    decreases |s|
  {
    if |s| > 0 {
      assert s[0..] == s;
      assert forall i :: 0 <= i < |s[1..]| ==> s[1..][i..] == s[i + 1..];
      ReplaceNone(s[1..], pat, rep);
      assert [s[0]] + s[1..] == s;
    }
  }

  /** The line `GenerateIntermediateCode` writes for one input. */
  function EntryLine(input: TimedInput): string {
    "        { COMMAND: \"" + input.command + "\", TIMING: " + IntToString(input.timingMs as int) + " },"
  }

  function EntryLines(s: seq<TimedInput>): (r: seq<string>)
    ensures |r| == |s| && forall i :: 0 <= i < |s| ==> r[i] == EntryLine(s[i])
  {
    seq(|s|, i requires 0 <= i < |s| => EntryLine(s[i]))
  }

  /** A null string prints as nothing in an interpolation. */
  function Shown(o: Option<string>): string {
    if o.Some? then o.value else ""
  }

  function CodeHeader(moveType: Option<string>, moveName: Option<string>, count: int): seq<string> {
    [ "// CÓDIGO INTERMEDIO GENERADO",
      "// Movimiento: " + Shown(moveType) + " - " + Shown(moveName),
      "// Total de inputs: " + IntToString(count),
      "",
      "EXECUTE {",
      "    MOVE_TYPE: " + Shown(moveType),
      "    MOVE_NAME: " + Shown(moveName),
      "    SEQUENCE: [" ]
  }

  function CodeFooter(total: int): seq<string> {
    [ "    ]",
      "    ANIMATION: START",
      "    DURATION: " + IntToString(total) + "ms",
      "}" ]
  }

  function CodeLines(moveType: Option<string>, moveName: Option<string>, s: seq<TimedInput>, total: int): seq<string> {
    CodeHeader(moveType, moveName, |s|) + EntryLines(s) + CodeFooter(total)
  }

  /** The emitted code has one SEQUENCE line per input, in order, between
      eight header lines and four footer lines. */
  lemma {:induction false} CodeLinesEntries(moveType: Option<string>, moveName: Option<string>, s: seq<TimedInput>, total: int)
    ensures var ls := CodeLines(moveType, moveName, s, total);
      && |ls| == |s| + 12
      && forall i :: 0 <= i < |s| ==> ls[8 + i] == EntryLine(s[i])
  {
    var h, b, f := CodeHeader(moveType, moveName, |s|), EntryLines(s), CodeFooter(total);
    assert |h| == 8 && |f| == 4;
    forall i | 0 <= i < |s|
      ensures (h + b + f)[8 + i] == EntryLine(s[i])
    {
      CodeGen.MidOfJoin(h, b, f, i);
    }
  }

  /** Its DURATION line, second from the end, gives `total`, the sum of the
      `TimingMs` values. */
  lemma {:induction false} CodeLinesDuration(moveType: Option<string>, moveName: Option<string>, s: seq<TimedInput>, total: int)
    ensures var ls := CodeLines(moveType, moveName, s, total);
      |ls| >= 2 && ls[|ls| - 2] == "    DURATION: " + IntToString(total) + "ms"
  {
    var h, b, f := CodeHeader(moveType, moveName, |s|), EntryLines(s), CodeFooter(total);
    assert |f| == 4;
    CodeGen.TailOfJoin(h, b, f, 2);
  }

  /** The `StringBuilder` of `GenerateIntermediateCode` (in both parsers)
      up to the last input: the header, then one `AppendLine` per input in a
      `foreach`. */
  method EmitEntries(moveType: Option<string>, moveName: Option<string>, s: seq<TimedInput>) returns (code: string)
    ensures code == CodeGen.Lines(CodeHeader(moveType, moveName, |s|) + EntryLines(s))
  {
    var header := CodeHeader(moveType, moveName, |s|);
    code := CodeGen.Lines(header);
    assert header + EntryLines(s[..0]) == header;
    for k := 0 to |s|
      invariant code == CodeGen.Lines(header + EntryLines(s[..k]))
    {
      EntryStep(header, s, k);
      code := code + CodeGen.Lines([EntryLine(s[k])]);
    }
    assert s[..|s|] == s;
  }

  /** The first match is at the first index whose value matches. */
  lemma {:induction false} FirstMatchAt(moves: seq<(string, seq<string>)>, commands: seq<string>, i: int)
    requires 0 <= i < |moves| && moves[i].1 == commands
    requires forall j :: 0 <= j < i ==> moves[j].1 != commands
    ensures FirstMatch(moves, commands) == Some(moves[i])
  {
    if i > 0 {
      FirstMatchAt(moves[1..], commands, i - 1);
    }
  }

  /** One more input extends the emitted text by its line. */
  lemma EntryStep(header: seq<string>, s: seq<TimedInput>, k: int)
    requires 0 <= k < |s|
    ensures CodeGen.Lines(header + EntryLines(s[..k + 1]))
            == CodeGen.Lines(header + EntryLines(s[..k])) + CodeGen.Lines([EntryLine(s[k])])
  {
    assert s[..k + 1][..k] == s[..k];
    assert header + EntryLines(s[..k + 1]) == (header + EntryLines(s[..k])) + [EntryLine(s[k])];
    CodeGen.LinesAppend(header + EntryLines(s[..k]), [EntryLine(s[k])]);
  }
}
