/** `IntermediateCodeGenerator` (IntermediateCodeGenerator.cs): the
    structured instruction list and the readable text form of a recognised
    move. Both sum the delays with LINQ's checked `Sum`, so an overflowing
    total is the one way they fail. */
module CodeGen {
  import opened Base
  import opened Models
  import opened Catalog

  /** `Environment.NewLine`, which `StringBuilder.AppendLine` writes, on the
      Windows host the capture side needs. */
  const NewLine: string := "\r\n"

  const UnknownCommand: string := "Comando desconocido"

  /** `GetCommandDescription(command)`. */
  function GetCommandDescription(command: string): (r: string)
    ensures r == UnknownCommand <==> !IsCommand(command)
  {
    match command
    case "UP" => "Dirección Arriba"
    case "DOWN" => "Dirección Abajo"
    case "LEFT" => "Dirección Izquierda"
    case "RIGHT" => "Dirección Derecha"
    case "FORWARD" => "Dirección Adelante"
    case "BACK" => "Dirección Atrás"
    case "LP" => "Low Punch (Golpe Bajo)"
    case "HP" => "High Punch (Golpe Alto)"
    case "LK" => "Low Kick (Patada Baja)"
    case "HK" => "High Kick (Patada Alta)"
    case "BL" => "Block (Bloqueo)"
    case "RUN" => "Run (Correr)"
    case _ => UnknownCommand
  }

  /** The instruction `Generate` adds for the input at index `i`. */
  function InstructionFor(i: int, input: TimedInput): CodeInstruction {
    CodeInstruction(i, input.command, input.millisecondsSincePrevious, GetCommandDescription(input.command))
  }

  /** `Generate(sequence, move)`. `compiledAt` is the formatted clock
      reading the source takes from `DateTime.Now`. */
  method Generate(sequence: seq<TimedInput>, move: MoveDefinition, compiledAt: string)
    returns (r: Result<IntermediateCode>)
    ensures r.Throw? <==> SumOverflows(Delays(sequence))
    ensures r.Throw? ==> r.message == OverflowMessage
    ensures r.Ok? ==>
      && r.value.moveType == move.kind && r.value.moveName == move.name && r.value.moveId == move.id
      && r.value.totalDuration == Sum(Delays(sequence))
      && |r.value.instructions| == |sequence|
      && (forall i :: 0 <= i < |sequence| ==> r.value.instructions[i] == InstructionFor(i, sequence[i]))
      && r.value.metadata == Metadata(move.character, move.description, |sequence|, compiledAt)
  {
    var total :- CheckedSum(Delays(sequence));
    var instructions: seq<CodeInstruction> := [];
    for i := 0 to |sequence|
      invariant |instructions| == i
      invariant forall k :: 0 <= k < i ==> instructions[k] == InstructionFor(k, sequence[k])
    {
      AppendKeeps(instructions, InstructionFor(i, sequence[i]));
      instructions := instructions + [InstructionFor(i, sequence[i])];
    }
    var metadata := Metadata(move.character, move.description, |sequence|, compiledAt);
    r := Ok(IntermediateCode(move.kind, move.name, move.id, instructions, total, metadata));
  }

  /** Appending keeps every earlier element. */
  lemma AppendKeeps<T>(a: seq<T>, x: T)
    ensures |a + [x]| == |a| + 1 && (a + [x])[|a|] == x
    ensures forall k :: 0 <= k < |a| ==> (a + [x])[k] == a[k]
  {
  }

  // ---------------------------------------------------------------------------
  // GenerateTextFormat
  // ---------------------------------------------------------------------------

  /** What a run of `AppendLine` calls writes. */
  function Lines(ls: seq<string>): string {
    if |ls| == 0 then "" else Lines(ls[..|ls| - 1]) + ls[|ls| - 1] + NewLine
  }

  lemma {:induction false} LinesAppend(a: seq<string>, b: seq<string>)
    ensures Lines(a + b) == Lines(a) + Lines(b)
    decreases |b|
  {
    if |b| == 0 {
      assert a + b == a;
    } else {
      var b', x := b[..|b| - 1], b[|b| - 1];
      assert (a + b)[..|a + b| - 1] == a + b';
      LinesAppend(a, b');
      calc {
        Lines(a + b);
        Lines(a + b') + x + NewLine;
        Lines(a) + Lines(b') + x + NewLine;
        Lines(a) + (Lines(b') + x + NewLine);
      }
    }
  }

  const Rule: string := "//================================================"

  /** The lines before the first input, `date` standing for `DateTime.Now`. */
  function HeaderLines(move: MoveDefinition, count: int, total: int, date: string): seq<string> {
    [ Rule,
      "// CÓDIGO INTERMEDIO GENERADO",
      "// Compilador: Mortal Kombat 3 Ultimate",
      "// Fecha: " + date,
      Rule,
      "",
      "// Personaje: " + move.character,
      "// Movimiento: " + move.kind + " - " + move.name,
      "// Descripción: " + move.description,
      "// Total de inputs: " + IntToString(count),
      "// Duración total: " + IntToString(total) + "ms",
      "",
      "EXECUTE {",
      "    MOVE_TYPE: " + move.kind,
      "    MOVE_ID: " + move.id,
      "    MOVE_NAME: \"" + move.name + "\"",
      "    CHARACTER: \"" + move.character + "\"",
      "",
      "    SEQUENCE: [" ]
  }

  /** The five lines of one input. */
  function BlockLines(input: TimedInput): seq<string> {
    [ "        {",
      "            COMMAND: \"" + input.command + "\",",
      "            TIMING: " + IntToString(input.millisecondsSincePrevious as int) + "ms,",
      "            DESCRIPTION: \"" + GetCommandDescription(input.command) + "\"",
      "        }," ]
  }

  function BlocksLines(s: seq<TimedInput>): (r: seq<string>)
    ensures |r| == 5 * |s|
  {
    if |s| == 0 then [] else BlocksLines(s[..|s| - 1]) + BlockLines(s[|s| - 1])
  }

  /** The lines after the last input. */
  function FooterLines(move: MoveDefinition, total: int): seq<string> {
    [ "    ]",
      "",
      "    ANIMATION: {",
      "        START: true,",
      "        DURATION: " + IntToString(total) + "ms,",
      "        TYPE: \"" + move.kind + "\"",
      "    }",
      "}",
      "",
      "// FIN DEL CÓDIGO INTERMEDIO" ]
  }

  function TextLines(s: seq<TimedInput>, move: MoveDefinition, total: int, date: string): seq<string> {
    HeaderLines(move, |s|, total, date) + BlocksLines(s) + FooterLines(move, total)
  }

  /** `GenerateTextFormat(sequence, move)` as a value. */
  function TextFormat(s: seq<TimedInput>, move: MoveDefinition, date: string): Result<string> {
    var total := CheckedSum(Delays(s));
    if total.Throw? then Throw(total.message) else Ok(Lines(TextLines(s, move, total.value, date)))
  }

  /** Block `i` describes input `i`: its command, its delay and its description. */
  lemma {:induction false} BlocksLinesAt(s: seq<TimedInput>, i: int)
    requires 0 <= i < |s|
    ensures BlocksLines(s)[5 * i..5 * i + 5] == BlockLines(s[i])
  {
    var init := s[..|s| - 1];
    var a, b := BlocksLines(init), BlockLines(s[|s| - 1]);
    assert BlocksLines(s) == a + b;
    if i < |s| - 1 {
      BlocksLinesAt(init, i);
      assert init[i] == s[i];
      SliceOfFront(a, b, 5 * i, 5 * i + 5);
    } else {
      SliceOfBack(a, b);
    }
  }

  /** Slicing a concatenation to its second part. */
  lemma SliceOfBack<T>(a: seq<T>, b: seq<T>)
    ensures (a + b)[|a|..|a| + |b|] == b
  {
  }

  /** Slicing a concatenation within its first part. */
  lemma SliceOfFront<T>(a: seq<T>, b: seq<T>, lo: int, hi: int)
    requires 0 <= lo <= hi <= |a|
    ensures (a + b)[lo..hi] == a[lo..hi]
  {
  }

  /** Slicing a concatenation within its middle part. */
  lemma SliceOfJoin<T>(h: seq<T>, b: seq<T>, f: seq<T>, lo: int, hi: int)
    requires 0 <= lo <= hi <= |b|
    ensures (h + b + f)[|h| + lo..|h| + hi] == b[lo..hi]
  {
  }

  /** Indexing a concatenation in its first part. */
  lemma HeadOfJoin<T>(h: seq<T>, b: seq<T>, f: seq<T>, i: int)
    requires 0 <= i < |h|
    ensures (h + b + f)[i] == h[i]
  {
  }

  /** Indexing a concatenation in its middle part. */
  lemma MidOfJoin<T>(h: seq<T>, b: seq<T>, f: seq<T>, j: int)
    requires 0 <= j < |b|
    ensures (h + b + f)[|h| + j] == b[j]
  {
  }

  /** Indexing a concatenation in its last part. */
  lemma TailOfJoin<T>(h: seq<T>, b: seq<T>, f: seq<T>, j: int)
    requires 0 <= j < |f|
    ensures |h + b + f| == |h| + |b| + |f| && (h + b + f)[|h| + |b| + j] == f[j]
  {
  }

  /** The text has 29 lines plus five per input; block `i` names input
      `i` with its delay. */
  lemma {:induction false} TextLinesBlocks(s: seq<TimedInput>, move: MoveDefinition, total: int, date: string, i: int)
    requires 0 <= i < |s|
    ensures |TextLines(s, move, total, date)| == 29 + 5 * |s|
    ensures TextLines(s, move, total, date)[19 + 5 * i..19 + 5 * i + 5] == BlockLines(s[i])
  {
    var h, b, f := HeaderLines(move, |s|, total, date), BlocksLines(s), FooterLines(move, total);
    BlocksLinesAt(s, i);
    SliceOfJoin(h, b, f, 5 * i, 5 * i + 5);
  }

  /** The header gives the summed duration, and the ANIMATION block gives
      the same one, six lines from the end. */
  lemma {:induction false} TextLinesTotals(s: seq<TimedInput>, move: MoveDefinition, total: int, date: string)
    ensures var ls := TextLines(s, move, total, date);
      && ls[10] == "// Duración total: " + IntToString(total) + "ms"
      && ls[|ls| - 6] == "        DURATION: " + IntToString(total) + "ms,"
  {
    var h, b, f := HeaderLines(move, |s|, total, date), BlocksLines(s), FooterLines(move, total);
    assert |h| == 19 && |f| == 10;
    HeadOfJoin(h, b, f, 10);
    TailOfJoin(h, b, f, 4);
  }

  /** The header names the move: its id, its quoted name and its quoted
      character. */
  lemma {:induction false} TextLinesNames(s: seq<TimedInput>, move: MoveDefinition, total: int, date: string)
    ensures var ls := TextLines(s, move, total, date);
      && ls[14] == "    MOVE_ID: " + move.id
      && ls[15] == "    MOVE_NAME: \"" + move.name + "\""
      && ls[16] == "    CHARACTER: \"" + move.character + "\""
  {
    var h, b, f := HeaderLines(move, |s|, total, date), BlocksLines(s), FooterLines(move, total);
    assert |h| == 19;
    HeadOfJoin(h, b, f, 14);
    HeadOfJoin(h, b, f, 15);
    HeadOfJoin(h, b, f, 16);
  }

  /** One more block extends the text by that block's lines. */
  lemma LinesStep(header: seq<string>, s: seq<TimedInput>, k: int)
    requires 0 <= k < |s|
    ensures Lines(header + BlocksLines(s[..k + 1])) == Lines(header + BlocksLines(s[..k])) + Lines(BlockLines(s[k]))
  {
    assert s[..k + 1][..k] == s[..k];
    assert header + BlocksLines(s[..k + 1]) == (header + BlocksLines(s[..k])) + BlockLines(s[k]);
    LinesAppend(header + BlocksLines(s[..k]), BlockLines(s[k]));
  }

  /** `GenerateTextFormat(sequence, move)`: header, one block per input in a
      `foreach`, footer, all through `AppendLine`. */
  method GenerateTextFormat(sequence: seq<TimedInput>, move: MoveDefinition, date: string)
    returns (r: Result<string>)
    ensures r == TextFormat(sequence, move, date)
  {
    var total :- CheckedSum(Delays(sequence));
    var header := HeaderLines(move, |sequence|, total, date);
    var sb := Lines(header);
    assert header + BlocksLines(sequence[..0]) == header;
    for k := 0 to |sequence|
      invariant sb == Lines(header + BlocksLines(sequence[..k]))
    {
      LinesStep(header, sequence, k);
      sb := sb + Lines(BlockLines(sequence[k]));
    }
    assert sequence[..|sequence|] == sequence;
    LinesAppend(header + BlocksLines(sequence), FooterLines(move, total));
    sb := sb + Lines(FooterLines(move, total));
    r := Ok(sb);
  }
}
