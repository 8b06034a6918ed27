/** The records the compiler passes between its stages (src/Common): a timed
    controller input, the timing constants, a move of the catalog, the
    compilation result and the intermediate code. */
module Models {
  import opened Base

  /** `TimingConstants`. */
  const TIMEOUT_MS: int := 2000
  const DEBOUNCE_MS: int := 50
  const XINPUT_POLL_INTERVAL: int := 16
  const MAX_SEQUENCE_DURATION: int := 10000

  /** `TimedInput`. The two parsers store a delay in `timingMs`; the
      validator, the generator and the converter read `millisecondsSincePrevious`.
      `timestamp` is the capture time in ticks, supplied by the caller. */
  datatype TimedInput = TimedInput(command: string, timingMs: int32, timestamp: int, millisecondsSincePrevious: int32)

  /** `new TimedInput { Command = c, TimingMs = t }` as the parsers build it:
      the other delay field keeps its default 0. */
  function ParsedInput(command: string, timing: int32, now: int): TimedInput {
    TimedInput(command, timing, now, 0)
  }

  /** `new TimedInput(command, timing)`: the delay goes to `MillisecondsSincePrevious`. */
  function CapturedInput(command: string, timing: int32, now: int): TimedInput {
    TimedInput(command, 0, now, timing)
  }

  /** `sequence.Select(i => i.Command)`. */
  function Commands(s: seq<TimedInput>): (r: seq<string>)
    ensures |r| == |s| && forall i :: 0 <= i < |s| ==> r[i] == s[i].command
  {
    if |s| == 0 then [] else Commands(s[..|s| - 1]) + [s[|s| - 1].command]
  }

  /** `sequence.Select(i => i.MillisecondsSincePrevious)`. */
  function Delays(s: seq<TimedInput>): (r: seq<int>)
    ensures |r| == |s| && forall i :: 0 <= i < |s| ==> r[i] == s[i].millisecondsSincePrevious
  {
    if |s| == 0 then [] else Delays(s[..|s| - 1]) + [s[|s| - 1].millisecondsSincePrevious as int]
  }

  /** `sequence.Select(i => i.TimingMs)`. */
  function Timings(s: seq<TimedInput>): (r: seq<int>)
    ensures |r| == |s| && forall i :: 0 <= i < |s| ==> r[i] == s[i].timingMs
  {
    if |s| == 0 then [] else Timings(s[..|s| - 1]) + [s[|s| - 1].timingMs as int]
  }

  /** `MoveDefinition`. */
  datatype MoveDefinition = MoveDefinition(
    id: string, name: string, kind: string, sequence: seq<string>,
    description: string, character: string)

  /** `CompilationResult` of the compiler library; the strings that stay
      null until a stage sets them are options. `CompiledAt` is a clock reading
      and is not modelled. */
  datatype CompilationResult = CompilationResult(
    success: bool, moveType: Option<string>, moveName: Option<string>, moveId: Option<string>,
    errors: seq<string>, validatedSequence: seq<TimedInput>,
    intermediateCode: Option<string>, totalDurationMs: int32)

  /** `new CompilationResult()`. */
  const EmptyResult: CompilationResult :=
    CompilationResult(false, None, None, None, [], [], None, 0)

  /** `CodeInstruction`. */
  datatype CodeInstruction = CodeInstruction(position: int, command: string, timing: int32, description: string)

  /** The four entries `Generate` puts in `Metadata`. */
  datatype Metadata = Metadata(character: string, description: string, inputCount: int, compiledAt: string)

  /** `IntermediateCode`. */
  datatype IntermediateCode = IntermediateCode(
    moveType: string, moveName: string, moveId: string,
    instructions: seq<CodeInstruction>, totalDuration: int32, metadata: Metadata)
}
