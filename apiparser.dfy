/** The backend's hand-written `Parser` (MortalKombatCompiler.API,
    Compiler/Parser.cs): a `while` loop that takes every token between
    SEQUENCE_START and SEQUENCE_END as a command, timing checks that only
    add errors, a dictionary of four moves (FRIENDSHIP among them) and the
    same code emitter as the generated parser. The functions over `AState`
    say what each method does; the `Parser` class is proved to compute
    them. */
module ApiParser {
  import opened Base
  import opened Models
  import opened Lexer
  import opened MoveCode
  import CodeGen

  /** The errors this parser adds, by kind; `ApiParserText.Text` spells them. */
  datatype ApiError =
    | Timeout(position: int, ms: int)
    | TooFast(position: int, ms: int)
    | NoMatch
    | Parsing(message: string)

  /** The backend's `CompilationResult`; the strings that stay null until
      the parser sets them are options. */
  datatype ApiResult = ApiResult(
    success: bool, moveType: Option<string>, moveName: Option<string>,
    errors: seq<ApiError>, validatedSequence: Option<seq<TimedInput>>,
    generatedCode: Option<string>)

  const NewResult: ApiResult := ApiResult(false, None, None, [], None, None)

  const StartMessage: string := "Se esperaba SEQUENCE_START"
  const EndMessage: string := "Se esperaba SEQUENCE_END"

  /** `cyraxMoves`, in insertion order (the order a `Dictionary` without
      removals enumerates): the three moves of the library, then FRIENDSHIP. */
  const CyraxMoves: seq<(string, seq<string>)> := [
    ("FATALITY_SELF_DESTRUCT", ["DOWN", "DOWN", "UP", "DOWN", "HP"]),
    ("FATALITY_HELICOPTER", ["DOWN", "DOWN", "FORWARD", "UP", "RUN"]),
    ("BRUTALITY_CYRAX", ["HP", "LK", "HK", "HK", "LP", "LP", "HP", "LP", "LK", "HK", "LK"]),
    ("FRIENDSHIP", ["RUN", "RUN", "RUN", "UP"])]

  /** The fields the syntax part changes: the scanner's position,
      `currentToken` and `inputSequence`. */
  datatype AState = AState(cur: Cursor, token: Token, inputs: seq<TimedInput>)

  /** What is left to read: the input ahead of the scanner, and one more
      while the current token is not EOF. */
  function Measure(src: Source, a: AState): nat {
    Remaining(src, a.cur) + (if a.token.kind == eofSym then 0 else 1)
  }

  /** `currentToken = scanner.Scan()`. */
  function ScanS(src: Source, a: AState): (r: Result<AState>)
    requires Fits(src, a.cur)
    ensures r.Ok? ==> Fits(src, r.value.cur) && Measure(src, r.value) <= Remaining(src, a.cur)
    ensures r.Ok? ==> r.value.inputs == a.inputs
  {
    var n := NextToken(src, a.cur);
    if n.Throw? then Throw(n.message)
    else
      NextTokenProgress(src, a.cur);
      Ok(a.(token := n.value.0, cur := n.value.1))
  }

  /** `ParseTimedInput()`: the current token's text is the command, whatever
      its kind; a TIMING token right after it gives the delay. `now` stands
      for the clock reading `new TimedInput` stores as its timestamp. */
  function TimedInputS(src: Source, a: AState, now: int): (r: Result<AState>)
    requires Fits(src, a.cur)
    ensures r.Ok? ==> Fits(src, r.value.cur) && Measure(src, r.value) <= Remaining(src, a.cur)
  {
    var command := a.token.val;
    var b := ScanS(src, a);
    if b.Throw? then b
    else if b.value.token.kind == 13 then
      var timing := TimingOf(b.value.token.val);
      if timing.Throw? then Throw(timing.message)
      else
        var c := ScanS(src, b.value);
        if c.Throw? then c
        else Ok(c.value.(inputs := c.value.inputs + [ParsedInput(command, timing.value, now)]))
    else Ok(b.value.(inputs := b.value.inputs + [ParsedInput(command, 0, now)]))
  }

  /** Whether the `while` of `ParseSequence` goes on. */
  predicate InBody(t: Token) {
    t.val != "SEQUENCE_END" && t.kind != eofSym
  }

  /** The `while` loop of `ParseSequence`: one input per round until
      SEQUENCE_END or EOF. */
  function LoopS(src: Source, a: AState, now: int): (r: Result<AState>)
    requires Fits(src, a.cur)
    ensures r.Ok? ==> Fits(src, r.value.cur)
    decreases Measure(src, a)
  {
    if InBody(a.token) then
      var q := TimedInputS(src, a, now);
      if q.Throw? then q else LoopS(src, q.value, now)
    else Ok(a)
  }

  /** `ParseSequence()`. */
  function SequenceS(src: Source, a: AState, now: int): (r: Result<AState>)
    requires Fits(src, a.cur)
    ensures r.Ok? ==> Fits(src, r.value.cur)
  {
    if a.token.val != "SEQUENCE_START" then Throw(StartMessage)
    else
      var b := ScanS(src, a);
      if b.Throw? then b
      else
        var c := LoopS(src, b.value, now);
        if c.Throw? then c
        else if c.value.token.val != "SEQUENCE_END" then Throw(EndMessage)
        else c
  }

  /** One input appends exactly one entry, whose command is the current
      token's text and whose delay is the value of a following TIMING
      token, or 0 without one. */
  lemma {:induction false} TimedInputAppendsOne(src: Source, a: AState, now: int)
    requires Fits(src, a.cur) && TimedInputS(src, a, now).Ok?
    ensures var q := TimedInputS(src, a, now).value;
      var b := ScanS(src, a).value;
      && q.inputs == a.inputs + [q.inputs[|a.inputs|]]
      && q.inputs[|a.inputs|].command == a.token.val
      && q.inputs[|a.inputs|].millisecondsSincePrevious == 0
      && (b.token.kind == 13 ==> Ok(q.inputs[|a.inputs|].timingMs) == TimingOf(b.token.val)
                                 && q == ScanS(src, b).value.(inputs := q.inputs))
      && (b.token.kind != 13 ==> q.inputs[|a.inputs|].timingMs == 0 && q == b.(inputs := q.inputs))
  {
    var b := ScanS(src, a).value;
    var q := TimedInputS(src, a, now).value;
    if b.token.kind == 13 {
      assert q.inputs == ScanS(src, b).value.inputs + [q.inputs[|a.inputs|]];
    } else {
      assert q.inputs == b.inputs + [q.inputs[|a.inputs|]];
    }
  }

  /** The loop keeps the inputs it started with and stops at SEQUENCE_END
      or at EOF. */
  lemma {:induction false} LoopStops(src: Source, a: AState, now: int)
    requires Fits(src, a.cur) && LoopS(src, a, now).Ok?
    ensures var q := LoopS(src, a, now).value;
      && !InBody(q.token)
      && |a.inputs| <= |q.inputs| && q.inputs[..|a.inputs|] == a.inputs
    decreases Measure(src, a)
  {
    if InBody(a.token) {
      var q := TimedInputS(src, a, now).value;
      TimedInputAppendsOne(src, a, now);
      LoopStops(src, q, now);
      var r := LoopS(src, q, now).value;
      assert r.inputs[..|a.inputs|] == r.inputs[..|q.inputs|][..|a.inputs|];
    }
  }

  /** `ParseSequence` fails with "Se esperaba SEQUENCE_START" exactly when
      the current token is not SEQUENCE_START. Once the loop has run, it
      stops on the SEQUENCE_END token without reading past it, or else input
      ran out first and it fails with "Se esperaba SEQUENCE_END". */
  lemma {:induction false} SequenceDelimiters(src: Source, a: AState, now: int)
    requires Fits(src, a.cur)
    ensures a.token.val != "SEQUENCE_START" ==> SequenceS(src, a, now) == Throw(StartMessage)
    ensures a.token.val == "SEQUENCE_START" && ScanS(src, a).Ok? && LoopS(src, ScanS(src, a).value, now).Ok? ==>
              var c := LoopS(src, ScanS(src, a).value, now).value;
              && (c.token.val == "SEQUENCE_END" ==> SequenceS(src, a, now) == Ok(c))
              && (c.token.val != "SEQUENCE_END" ==> c.token.kind == eofSym && SequenceS(src, a, now) == Throw(EndMessage))
  {
    if a.token.val == "SEQUENCE_START" && ScanS(src, a).Ok? && LoopS(src, ScanS(src, a).value, now).Ok? {
      LoopStops(src, ScanS(src, a).value, now);
    }
  }

  // ---------------------------------------------------------------------------
  // ValidateAndIdentifyMove and GenerateIntermediateCode
  // ---------------------------------------------------------------------------

  /** The timing errors for the inputs before `n`; the first input is never
      checked. */
  function TimingChecks(s: seq<TimedInput>, n: nat): seq<ApiError>
    requires n <= |s|
  {
    if n == 0 then []
    else
      var i, ms := n - 1, s[n - 1].timingMs as int;
      TimingChecks(s, n - 1)
      + (if i > 0 && ms > 2000 then [Timeout(i, ms)] else [])
      + (if i > 0 && ms < 50 then [TooFast(i, ms)] else [])
  }

  /** The checks find nothing exactly when every input after the first has
      a `TimingMs` within [50, 2000]. */
  lemma {:induction false} TimingChecksEmpty(s: seq<TimedInput>, n: nat)
    requires n <= |s|
    ensures TimingChecks(s, n) == [] <==> forall i :: 1 <= i < n ==> 50 <= s[i].timingMs <= 2000
  {
    if n > 0 {
      TimingChecksEmpty(s, n - 1);
      var i, ms := n - 1, s[n - 1].timingMs as int;
      var a := TimingChecks(s, n - 1);
      var b := if i > 0 && ms > 2000 then [Timeout(i, ms)] else [];
      var c := if i > 0 && ms < 50 then [TooFast(i, ms)] else [];
      assert TimingChecks(s, n) == a + b + c;
      assert |a + b + c| == |a| + |b| + |c|;
      assert b + c == [] <==> (i > 0 ==> 50 <= s[i].timingMs <= 2000);
    }
  }

  /** The type a key gives: the generated parser's two prefixes, then
      FRIENDSHIP. */
  function ApiKeyType(key: string): Option<string> {
    if KeyType(key).Some? then KeyType(key)
    else if StartsWith(key, "FRIENDSHIP") then Some("FRIENDSHIP")
    else None
  }

  /** The name a key gives; FRIENDSHIP is always named CYRAX. */
  function ApiKeyName(key: string): Option<string> {
    if KeyName(key).Some? then KeyName(key)
    else if StartsWith(key, "FRIENDSHIP") then Some("CYRAX")
    else None
  }

  /** `ValidateAndIdentifyMove()` up to its call of
      `GenerateIntermediateCode`: the timing errors are added but leave
      `Success` alone; a dictionary match sets `Success`, the validated
      sequence, the type and the name; no match adds one more error. */
  function IdentifyS(s: seq<TimedInput>, res: ApiResult): ApiResult {
    var checked := res.(errors := res.errors + TimingChecks(s, |s|));
    var m := FirstMatch(CyraxMoves, Commands(s));
    if m.None? then checked.(success := false, errors := checked.errors + [NoMatch])
    else
      var key := m.value.0;
      checked.(success := true, validatedSequence := Some(s),
               moveType := if ApiKeyType(key).Some? then ApiKeyType(key) else res.moveType,
               moveName := if ApiKeyName(key).Some? then ApiKeyName(key) else res.moveName)
  }

  /** `GenerateIntermediateCode()`: nothing unless `Success`; the sum of
      `TimingMs` is LINQ's checked `Sum`. */
  function GenerateS(s: seq<TimedInput>, res: ApiResult): Result<ApiResult> {
    if !res.success then Ok(res)
    else
      var total := CheckedSum(Timings(s));
      if total.Throw? then Throw(total.message)
      else Ok(res.(generatedCode := Some(CodeGen.Lines(CodeLines(res.moveType, res.moveName, s, total.value)))))
  }

  /** How a method that computes `g` from `res` ends: with the exception,
      leaving `res` as it was, or normally with the new value. */
  function Ended(g: Result<ApiResult>, res: ApiResult): (Outcome, ApiResult) {
    if g.Throw? then (Exception(g.message), res) else (Normal, g.value)
  }

  /** The `catch` of `Parse`: `Success` cleared and the message added. */
  function Caught(res: ApiResult, message: string): ApiResult {
    res.(success := false, errors := res.errors + [Parsing(message)])
  }

  /** `Parse()`: the sequence, then the checks, the match and the code; an
      exception anywhere becomes one more error. */
  function ParseS(src: Source, a: AState, res: ApiResult, now: int): ApiResult
    requires Fits(src, a.cur)
  {
    var q := SequenceS(src, a, now);
    if q.Throw? then Caught(res, q.message)
    else
      var m := IdentifyS(q.value.inputs, res);
      var g := GenerateS(q.value.inputs, m);
      if g.Throw? then Caught(m, g.message) else g.value
  }

  /** The outcome of the semantic part: `Success` is set exactly when the
      commands are one of the four dictionary entries, whatever the timing
      errors; the errors are the timing errors, then the no-match error
      when nothing matched; and the timing errors are absent exactly when
      every gap after the first lies within [50, 2000]. */
  lemma {:induction false} IdentifyOutcome(s: seq<TimedInput>, res: ApiResult)
    ensures var m := IdentifyS(s, res);
      && (m.success <==> exists i :: 0 <= i < |CyraxMoves| && CyraxMoves[i].1 == Commands(s))
      && (m.success ==> m.errors == res.errors + TimingChecks(s, |s|) && m.validatedSequence == Some(s))
      && (!m.success ==> m.errors == res.errors + TimingChecks(s, |s|) + [NoMatch])
      && (TimingChecks(s, |s|) == [] <==> forall i :: 1 <= i < |s| ==> 50 <= s[i].timingMs <= 2000)
  {
    TimingChecksEmpty(s, |s|);
    if !(exists i :: 0 <= i < |CyraxMoves| && CyraxMoves[i].1 == Commands(s)) {
      assert FirstMatch(CyraxMoves, Commands(s)).None?;
    }
  }

  /** FRIENDSHIP is the fourth entry; its commands give the type FRIENDSHIP
      and the name CYRAX. */
  lemma FriendshipIdentified(s: seq<TimedInput>, res: ApiResult)
    requires Commands(s) == ["RUN", "RUN", "RUN", "UP"]
    ensures IdentifyS(s, res).success
    ensures IdentifyS(s, res).moveType == Some("FRIENDSHIP") && IdentifyS(s, res).moveName == Some("CYRAX")
  {
    FirstMatchAt(CyraxMoves, Commands(s), 3);
    var key := CyraxMoves[3].0;
    assert key[1] == 'R';
    assert !StartsWith(key, "FATALITY") by {
      assert |key| >= 8 ==> key[..8][1] == key[1];
    }
    assert !StartsWith(key, "BRUTALITY") by {
      assert |key| >= 9 ==> key[..9][0] == key[0];
    }
    assert StartsWith(key, "FRIENDSHIP");
  }

  /** A successful parse read a whole sequence whose commands are a
      dictionary entry and whose `TimingMs` values sum without overflow, and
      its code is the emitter's text for them (`MoveCode.CodeLinesEntries`
      and `MoveCode.CodeLinesDuration` give its lines). */
  lemma {:induction false} ParseCode(src: Source, a: AState, res: ApiResult, now: int)
    requires Fits(src, a.cur) && ParseS(src, a, res, now).success
    ensures SequenceS(src, a, now).Ok?
    ensures var s := SequenceS(src, a, now).value.inputs;
      var r := ParseS(src, a, res, now);
      && !SumOverflows(Timings(s))
      && (exists i :: 0 <= i < |CyraxMoves| && CyraxMoves[i].1 == Commands(s))
      && r.generatedCode == Some(CodeGen.Lines(CodeLines(r.moveType, r.moveName, s, Sum(Timings(s)))))
  {
    var q := SequenceS(src, a, now);
    assert q.Ok?;
    var s := q.value.inputs;
    var m := IdentifyS(s, res);
    var g := GenerateS(s, m);
    assert ParseS(src, a, res, now) == (if g.Throw? then Caught(m, g.message) else g.value);
    assert g.Ok? && m.success;
    assert FirstMatch(CyraxMoves, Commands(s)).Some?;
    assert CheckedSum(Timings(s)).Ok?;
  }

  /** A first token other than SEQUENCE_START leaves a fresh result failed
      with that single error. */
  lemma StartRequired(src: Source, a: AState, now: int)
    requires Fits(src, a.cur) && a.token.val != "SEQUENCE_START"
    ensures ParseS(src, a, NewResult, now) == NewResult.(errors := [Parsing(StartMessage)])
  {
    SequenceDelimiters(src, a, now);
  }

  /** The `for` loop at the head of `ValidateAndIdentifyMove`: each gap out
      of range adds an error to `res`. */
  method CheckTimings(s: seq<TimedInput>, res: ApiResult) returns (checked: ApiResult)
    ensures checked == res.(errors := res.errors + TimingChecks(s, |s|))
  {
    checked := res;
    for i := 0 to |s|
      invariant checked == res.(errors := res.errors + TimingChecks(s, i))
    {
      var input := s[i];
      if i > 0 && input.timingMs as int > 2000 {
        checked := checked.(errors := checked.errors + [Timeout(i, input.timingMs as int)]);
      }
      if i > 0 && input.timingMs as int < 50 {
        checked := checked.(errors := checked.errors + [TooFast(i, input.timingMs as int)]);
      }
    }
  }

  /** The branch of `ValidateAndIdentifyMove` that sets the type and the
      name from the matched key. */
  method Named(key: string, res: ApiResult) returns (named: ApiResult)
    ensures named == res.(moveType := if ApiKeyType(key).Some? then ApiKeyType(key) else res.moveType,
                          moveName := if ApiKeyName(key).Some? then ApiKeyName(key) else res.moveName)
  {
    named := res;
    if StartsWith(key, "FATALITY") {
      named := named.(moveType := Some("FATALITY"),
                      moveName := Some(Replace(Replace(key, "FATALITY_", ""), "_", " ")));
    } else if StartsWith(key, "BRUTALITY") {
      named := named.(moveType := Some("BRUTALITY"),
                      moveName := Some(Replace(Replace(key, "BRUTALITY_", ""), "_", " ")));
    } else if StartsWith(key, "FRIENDSHIP") {
      named := named.(moveType := Some("FRIENDSHIP"), moveName := Some("CYRAX"));
    }
  }

  // ---------------------------------------------------------------------------
  // The parser object
  // ---------------------------------------------------------------------------

  /** `Parser`. The scanner it reads from is represented by its source and
      its position, as in the generated parser's model: `Scan` is
      `Lexer.NextToken`, which `Scanning.Scanner.ScanIdle` is proved to
      compute. */
  class Parser {
    const src: Source
    var cur: Cursor
    var currentToken: Token
    var inputSequence: seq<TimedInput>
    var result: ApiResult

    ghost predicate Valid()
      reads this
    {
      Fits(src, cur)
    }

    ghost function State(): AState
      reads this
    {
      AState(cur, currentToken, inputSequence)
    }

    /** The method ended as the spec value says: with its exception, or
        normally in that state. */
    ghost predicate Done(o: Outcome, s: Result<AState>)
      reads this
    {
      (s.Throw? ==> o == Exception(s.message)) && (s.Ok? ==> o.Normal? && Valid() && State() == s.value)
    }

    /** `GenerateIntermediateCode` has run on `res`: an exception leaves
        `res` as it was, otherwise the code is added. */
    ghost predicate Generated(o: Outcome, res: ApiResult)
      reads this
    {
      (o, result) == Ended(GenerateS(inputSequence, res), res)
    }

    constructor Over(src: Source, cur: Cursor, token: Token)
      requires Fits(src, cur)
      ensures this.src == src && Valid() && State() == AState(cur, token, []) && result == NewResult
    {
      this.src, this.cur, currentToken := src, cur, token;
      inputSequence := [];
      result := NewResult;
    }

    /** `new Parser(scanner)`: the first token is scanned at once, and an
        exception from the scanner escapes the constructor. */
    static method Create(src: Source, cur: Cursor) returns (r: Result<Parser>)
      requires Fits(src, cur)
      ensures NextToken(src, cur).Throw? ==> r == Throw(NextToken(src, cur).message)
      ensures NextToken(src, cur).Ok? ==>
                && r.Ok? && fresh(r.value) && r.value.src == src && r.value.Valid()
                && r.value.State() == AState(NextToken(src, cur).value.1, NextToken(src, cur).value.0, [])
                && r.value.result == NewResult
    {
      var next := NextToken(src, cur);
      if next.Throw? {
        return Throw(next.message);
      }
      var p := new Parser.Over(src, next.value.1, next.value.0);
      r := Ok(p);
    }

    /** `currentToken = scanner.Scan()`. */
    method Scan() returns (o: Outcome)
      requires Valid()
      modifies this`cur, this`currentToken
      ensures Done(o, ScanS(src, old(State())))
    {
      var next := NextToken(src, cur);
      if next.Throw? {
        return Exception(next.message);
      }
      currentToken, cur := next.value.0, next.value.1;
      o := Normal;
    }

    method ParseTimedInput(now: int) returns (o: Outcome)
      requires Valid()
      modifies this`cur, this`currentToken, this`inputSequence
      ensures Done(o, TimedInputS(src, old(State()), now))
    {
      var command := currentToken.val;
      var timing: int32 := 0;
      o := Scan();
      if o.Exception? {
        return;
      }
      if currentToken.kind == 13 {
        var value := TimingOf(currentToken.val);
        if value.Throw? {
          return Exception(value.message);
        }
        timing := value.value;
        o := Scan();
        if o.Exception? {
          return;
        }
      }
      inputSequence := inputSequence + [ParsedInput(command, timing, now)];
    }

    method ParseSequence(now: int) returns (o: Outcome)
      requires Valid()
      modifies this`cur, this`currentToken, this`inputSequence
      ensures Done(o, SequenceS(src, old(State()), now))
    {
      if currentToken.val != "SEQUENCE_START" {
        return Exception(StartMessage);
      }
      o := Scan();
      if o.Exception? {
        return;
      }
      ghost var goal := LoopS(src, State(), now);
      while InBody(currentToken)
        invariant o == Normal && Valid() && goal == LoopS(src, State(), now)
        decreases Measure(src, State())
      {
        ghost var a := State();
        assert LoopS(src, a, now) == (var q := TimedInputS(src, a, now); if q.Throw? then q else LoopS(src, q.value, now));
        o := ParseTimedInput(now);
        if o.Exception? {
          return;
        }
      }
      if currentToken.val != "SEQUENCE_END" {
        return Exception(EndMessage);
      }
    }

    method ValidateAndIdentifyMove() returns (o: Outcome)
      modifies this`result
      ensures Generated(o, IdentifyS(inputSequence, old(result)))
    {
      var s := inputSequence;
      ghost var identified := IdentifyS(s, result);
      var res := CheckTimings(s, result);
      var commands := Commands(s);
      for i := 0 to |CyraxMoves|
        invariant forall j :: 0 <= j < i ==> CyraxMoves[j].1 != commands
      {
        var (key, value) := CyraxMoves[i];
        if commands == value {
          assert FirstMatch(CyraxMoves, commands) == Some(CyraxMoves[i]) by {
            FirstMatchAt(CyraxMoves, commands, i);
          }
          result := Named(key, res.(success := true, validatedSequence := Some(s)));
          assert result == identified;
          o := GenerateIntermediateCode();
          return;
        }
      }
      result := res.(success := false, errors := res.errors + [NoMatch]);
      o := Normal;
      assert result == identified;
      assert GenerateS(s, result) == Ok(result);
    }

    /** `GenerateIntermediateCode()`. */
    method GenerateIntermediateCode() returns (o: Outcome)
      modifies this`result
      ensures Generated(o, old(result))
    {
      if !result.success {
        return Normal;
      }
      var s := inputSequence;
      var code := EmitEntries(result.moveType, result.moveName, s);
      var total := CheckedSum(Timings(s));
      if total.Throw? {
        return Exception(total.message);
      }
      CodeGen.LinesAppend(CodeHeader(result.moveType, result.moveName, |s|) + EntryLines(s), CodeFooter(total.value));
      code := code + CodeGen.Lines(CodeFooter(total.value));
      result := result.(generatedCode := Some(code));
      o := Normal;
    }

    /** `Parse()`: the `try` around the sequence and the semantic part. */
    method Parse(now: int)
      requires Valid()
      modifies this
      ensures result == ParseS(src, old(State()), old(result), now)
      ensures SequenceS(src, old(State()), now).Ok? ==> State() == SequenceS(src, old(State()), now).value
    {
      var o := ParseSequence(now);
      if o.Exception? {
        result := Caught(result, o.message);
        return;
      }
      o := ValidateAndIdentifyMove();
      if o.Exception? {
        result := Caught(result, o.message);
      }
    }
  }
}

/** The wording of the backend parser's errors. */
module ApiParserText {
  import opened Base
  import opened ApiParser

  function Text(e: ApiError): string {
    match e
    case Timeout(i, ms) => "Timeout excedido en input " + IntToString(i + 1) + ": " + IntToString(ms) + "ms"
    case TooFast(i, ms) => "Inputs demasiado rápidos en posición " + IntToString(i + 1) + ": " + IntToString(ms) + "ms"
    case NoMatch => "Secuencia no coincide con ningún movimiento conocido"
    case Parsing(m) => "Error de parsing: " + m
  }
}
