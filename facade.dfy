/** `CompilerFacade` (CompilerFacade.cs): the stages of a compilation in
    order (timing, identification, code generation), stopping at the first
    one that fails and turning an exception into a single error. */
module Facade {
  import opened Base
  import opened Models
  import opened Catalog
  import opened Timing
  import TimingText
  import opened Sequences
  import SequenceText
  import opened CodeGen
  import Lexer
  import opened ScanBuffer
  import Scanning
  import GenParser

  const CompileErrorPrefix: string := "Error durante la compilación: "

  /** A fresh `CompilationResult` with `Success` false and these errors. */
  function Failed(errors: seq<string>): CompilationResult {
    EmptyResult.(errors := errors)
  }

  /** `CompileFromSequence(sequence)` as a value. `date` is the clock reading
      the text form prints. An overflowing sum of delays makes the timing
      stage throw before any later stage runs; once timing has passed, the
      generator's sums cannot overflow. */
  function CompileSequence(s: seq<TimedInput>, date: string): CompilationResult {
    var timing := Validate(s);
    if timing.1.Throw? then Failed([CompileErrorPrefix + timing.1.message])
    else if !timing.1.value then Failed(TimingText.Texts(timing.0))
    else
      var identified := Identify(s);
      if identified.1.None? then Failed(SequenceText.Texts(identified.0))
      else
        var move := identified.1.value;
        var text := TextFormat(s, move, date);
        if text.Throw? then Failed([CompileErrorPrefix + text.message])
        else
          var total := CheckedSum(Delays(s));
          CompilationResult(true, Some(move.kind), Some(move.name), Some(move.id), [], s,
                            Some(text.value), if total.Ok? then total.value as int32 else 0)
  }

  /** A compilation succeeds exactly when the sequence is non-empty, every
      gap after the first input lies within [DEBOUNCE_MS, TIMEOUT_MS], the
      delays sum without overflow to at most MAX_SEQUENCE_DURATION, and the
      commands are the sequence of a catalog entry. */
  lemma {:induction false} CompileSucceedsIff(s: seq<TimedInput>, date: string)
    ensures CompileSequence(s, date).success <==>
              && |s| > 0
              && (forall i :: 1 <= i < |s| ==> DEBOUNCE_MS <= s[i].millisecondsSincePrevious <= TIMEOUT_MS)
              && !SumOverflows(Delays(s)) && Sum(Delays(s)) <= MAX_SEQUENCE_DURATION
              && exists i :: 0 <= i < |AllMoves| && AllMoves[i].sequence == Commands(s)
  {
    var timing := Validate(s);
    if |s| > 0 && SumOverflows(Delays(s)) {
      ValidateEdges(s);
    } else {
      if |s| > 0 {
        assert CheckedSum(Delays(s)).Ok?;
      }
      ValidateMeaning(s);
      IdentifyMeaning(s);
      if timing.1.value && Identify(s).1.Some? {
        assert TextFormat(s, Identify(s).1.value, date).Ok?;
      }
    }
  }

  /** A successful compilation reports the matched move, the input as its
      validated sequence, the text form as its code and the summed delays,
      and carries no error. */
  lemma {:induction false} CompileSuccessResult(s: seq<TimedInput>, date: string)
    requires CompileSequence(s, date).success
    ensures var r := CompileSequence(s, date);
      && r.errors == []
      && FindBySequence(Commands(s)).Some?
      && var move := FindBySequence(Commands(s)).value;
      && r.moveType == Some(move.kind) && r.moveName == Some(move.name) && r.moveId == Some(move.id)
      && r.validatedSequence == s
      && r.intermediateCode == Some(Lines(TextLines(s, move, Sum(Delays(s)), date)))
      && r.totalDurationMs as int == Sum(Delays(s))
  {
  }

  /** A failed timing stage gives exactly the timing validator's errors, and
      the later stages contribute nothing. */
  lemma {:induction false} TimingFailureResult(s: seq<TimedInput>, date: string)
    requires Validate(s).1 == Ok(false)
    ensures CompileSequence(s, date) == Failed(TimingText.Texts(Validate(s).0))
    ensures |CompileSequence(s, date).errors| >= 1
  {
    ValidateMeaning(s);
    TextsLength(Validate(s).0);
  }

  lemma {:induction false} TextsLength(es: seq<TimingError>)
    ensures |TimingText.Texts(es)| == |es|
    decreases |es|
  {
    if |es| > 0 {
      TextsLength(es[1..]);
    }
  }

  /** Timing passed but nothing matches: a failure with the single error
      naming the commands. */
  lemma {:induction false} NoMatchResult(s: seq<TimedInput>, date: string)
    requires Validate(s).1 == Ok(true) && FindBySequence(Commands(s)).None?
    ensures CompileSequence(s, date) == Failed([SequenceText.Text(NoMatch(Commands(s)))])
  {
    ValidateMeaning(s);
    IdentifyMeaning(s);
    assert SequenceText.Texts([NoMatch(Commands(s))]) == [SequenceText.Text(NoMatch(Commands(s)))];
  }

  /** Two inputs or more whose second has no recorded delay (the way both
      parsers leave `MillisecondsSincePrevious`) fail the debounce check. */
  lemma {:induction false} ZeroGapFails(s: seq<TimedInput>, date: string)
    requires |s| >= 2 && s[1].millisecondsSincePrevious == 0
    ensures !CompileSequence(s, date).success
  {
    CompileSucceedsIff(s, date);
  }

  const SourceErrorPrefix: string := "Error al compilar: "
  const SyntaxErrorsMessage: string := "Errores de sintaxis detectados:"

  /** `CompileFromSource(sourceCode)` as a value, the source given as its
      UTF-8 bytes in a memory stream (seekable). `now` is the clock reading
      the parser stores in each entry, `date` the one the text form prints.
      An exception of the scanner or the parser is one error; any syntax
      error reported is the one generic error; otherwise the parsed entries
      go through `CompileFromSequence`. */
  function CompileSource(data: seq<byte>, now: int, date: string): CompilationResult {
    var parsed := GenParser.ParseSource(Lexer.Source(data, true), now);
    if parsed.Throw? then Failed([SourceErrorPrefix + parsed.message])
    else if |parsed.value.reported| > 0 then Failed([SyntaxErrorsMessage])
    else CompileSequence(parsed.value.inputs, date)
  }

  /** A source that parses without syntax errors compiles as its parsed
      entries do; a syntax error stops compilation with the single generic
      error. */
  lemma {:induction false} CompileSourceStages(data: seq<byte>, now: int, date: string)
    requires GenParser.ParseSource(Lexer.Source(data, true), now).Ok?
    ensures var p := GenParser.ParseSource(Lexer.Source(data, true), now).value;
      && (|p.reported| > 0 ==> CompileSource(data, now, date) == Failed([SyntaxErrorsMessage]))
      && (|p.reported| == 0 ==> CompileSource(data, now, date) == CompileSequence(p.inputs, date))
      && (CompileSource(data, now, date).success ==> |p.reported| == 0 && |p.inputs| == 1)
  {
    var src := Lexer.Source(data, true);
    var init := Lexer.Init(src).value;
    var p := GenParser.ParseSource(src, now).value;
    GenParser.ParseNoGaps(src, GenParser.Start(init), now);
    if |p.reported| == 0 && |p.inputs| >= 2 {
      ZeroGapFails(p.inputs, date);
    }
    if |p.reported| == 0 && |p.inputs| == 0 {
      CompileSucceedsIff(p.inputs, date);
    }
  }

  /** `CompilerFacade`: one timing validator and one sequence validator,
      whose `Errors` lists the stages leave behind. */
  class CompilerFacade {
    const timingValidator: TimingValidator
    const sequenceValidator: SequenceValidator

    constructor ()
      ensures fresh(timingValidator) && fresh(sequenceValidator)
      ensures timingValidator.errors == [] && sequenceValidator.errors == []
    {
      timingValidator := new TimingValidator();
      sequenceValidator := new SequenceValidator();
    }

    /** `CompileFromSequence(sequence)`. `stamp` is the clock reading
        `Generate` stores as `CompiledAt`, `date` the one the text form prints. */
    method CompileFromSequence(sequence: seq<TimedInput>, stamp: string, date: string)
      returns (result: CompilationResult)
      modifies timingValidator, sequenceValidator
      ensures result == CompileSequence(sequence, date)
      ensures timingValidator.errors == Validate(sequence).0
      ensures Validate(sequence).1 != Ok(true) ==> unchanged(sequenceValidator)
      ensures Validate(sequence).1 == Ok(true) ==> sequenceValidator.errors == Identify(sequence).0
    {
      var valid := timingValidator.ValidateSequence(sequence);
      if valid.Throw? {
        return Failed([CompileErrorPrefix + valid.message]);
      }
      if !valid.value {
        return Failed(TimingText.Texts(timingValidator.errors));
      }
      var move := sequenceValidator.IdentifyMove(sequence);
      if move.None? {
        return Failed(SequenceText.Texts(sequenceValidator.errors));
      }
      var code := Generate(sequence, move.value, stamp);
      if code.Throw? {
        return Failed([CompileErrorPrefix + code.message]);
      }
      // `Generate` has summed the delays without overflow, so the text
      // form and the total cannot throw.
      var text := GenerateTextFormat(sequence, move.value, date);
      var total := CheckedSum(Delays(sequence));
      if text.Throw? || total.Throw? {
        assert false;
      }
      result := CompilationResult(true, Some(move.value.kind), Some(move.value.name), Some(move.value.id),
                                  [], sequence, Some(text.value), total.value as int32);
    }

    /** `CompileFromSource(sourceCode)`: a scanner over the bytes (its
        constructor reads the byte order mark), a parser over it, the syntax
        error gate, then `CompileFromSequence` on the parsed entries. */
    method CompileFromSource(data: seq<byte>, now: int, stamp: string, date: string)
      returns (result: CompilationResult)
      requires |data| < INT_MAX
      modifies timingValidator, sequenceValidator
      ensures result == CompileSource(data, now, date)
    {
      var scanner := Scanning.Scanner.Open(data, true, true);
      if scanner.Throw? {
        return Failed([SourceErrorPrefix + scanner.message]);
      }
      var parser := new GenParser.Parser(scanner.value.Src(), scanner.value.Cur());
      var o := parser.Parse(now);
      if o.Exception? {
        return Failed([SourceErrorPrefix + o.message]);
      }
      if parser.errors.count > 0 {
        return Failed([SyntaxErrorsMessage]);
      }
      result := CompileFromSequence(parser.inputSequence, stamp, date);
    }

    /** `IsValidPrefix(partialSequence)`, which `SequenceValidator` answers. */
    function IsValidPrefix(partial: seq<TimedInput>): (r: bool)
      ensures r <==> |partial| > 0 && exists i :: 0 <= i < |AllMoves| && StrictPrefixOf(Commands(partial), AllMoves[i].sequence)
    {
      IsValidPrefixSequence(partial)
    }

    /** `GetPossibleMoves(partialSequence)`, which `SequenceValidator` answers. */
    function GetPossibleMoves(partial: seq<TimedInput>): (r: seq<MoveDefinition>)
      ensures |partial| == 0 ==> r == AllMoves
      ensures |partial| > 0 ==> SublistOf(r, AllMoves) && forall m :: m in r <==> m in AllMoves && StrictPrefixOf(Commands(partial), m.sequence)
    {
      Sequences.GetPossibleMoves(partial)
    }
  }
}
