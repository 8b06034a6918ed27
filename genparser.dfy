/** The generated recursive-descent `Parser` of the compiler library
    (src/Compiler/Generated/Parser.cs): `Get`, `Expect` and `SynErr` with the
    `errDist` error suppression, the productions MortalKombat, TimedSequence,
    TimedInput, Direction and Button, and the semantic actions the grammar
    embeds (its own timing check, matcher and code emitter). The functions
    over `PState` say what each method does to the parser's fields and to the
    scanner's position; the `Parser` class is proved to compute them. */
module GenParser {
  import opened Base
  import opened Models
  import opened Lexer
  import opened Scanning
  import CodeGen
  import opened MoveCode
  import Catalog

  const minErrDist: int := 2

  /** The parser's own copies of the timing limits. */
  const PARSER_TIMEOUT_MS: int := 2000
  const PARSER_DEBOUNCE_MS: int := 50

  /** The token `Parse` starts from: `new Token()` with `val` "". */
  const NoToken: Token := Token(0, 0, 0, 0, 0, "")

  /** A syntax error `Errors.SynErr(line, col, n)` reported. */
  datatype SynError = SynError(line: int, col: int, n: int)

  /** The semantic errors the parser adds to its result, by kind;
      `GenParserText.Text` spells them. */
  datatype CheckError =
    | Timeout(position: int, ms: int)
    | TooFast(position: int, ms: int)
    | NoMatch

  /** The parser's nested `CompilationResult`; the strings that stay null
      until an action sets them are options. */
  datatype ParseResult = ParseResult(
    success: bool, moveType: Option<string>, moveName: Option<string>,
    errors: seq<CheckError>, validatedSequence: Option<seq<TimedInput>>,
    generatedCode: Option<string>)

  const NewResult: ParseResult := ParseResult(false, None, None, [], None, None)

  /** The fields of a parser: the scanner's position, `t`, `la`, `errDist`,
      the errors reported so far, `inputSequence` and `result`. */
  datatype PState = PState(
    cur: Cursor, t: Token, la: Token, errDist: int, reported: seq<SynError>,
    inputs: seq<TimedInput>, result: ParseResult)

  /** A parser right after construction, over a scanner standing at `cur`. */
  function Start(cur: Cursor): PState {
    PState(cur, NoToken, NoToken, minErrDist, [], [], NewResult)
  }

  /** What is left to read: the input ahead of the scanner, and one more
      while the lookahead is not EOF. */
  function Measure(src: Source, p: PState): nat {
    Remaining(src, p.cur) + (if p.la.kind == eofSym then 0 else 1)
  }

  // ---------------------------------------------------------------------------
  // Get, SynErr, Expect
  // ---------------------------------------------------------------------------

  /** `Get()`: the lookahead becomes `t` and the scanner reads the next one.
      The loop around it runs once, every kind being at most `maxT`. */
  function GetS(src: Source, p: PState): (r: Result<PState>)
    requires Fits(src, p.cur)
    ensures r.Ok? ==> Fits(src, r.value.cur) && Measure(src, r.value) <= Remaining(src, p.cur)
  {
    var n := NextToken(src, p.cur);
    if n.Throw? then Throw(n.message)
    else
      NextTokenProgress(src, p.cur);
      Ok(p.(t := p.la, la := n.value.0, cur := n.value.1, errDist := p.errDist + 1))
  }

  /** `SynErr(n)`: reported only at least `minErrDist` tokens after the
      previous error. */
  function SynErrS(p: PState, n: int): PState {
    p.(reported := if p.errDist >= minErrDist then p.reported + [SynError(p.la.line, p.la.col, n)] else p.reported,
       errDist := 0)
  }

  /** `Expect(n)`. */
  function ExpectS(src: Source, p: PState, n: int): (r: Result<PState>)
    requires Fits(src, p.cur)
    ensures r.Ok? ==> Fits(src, r.value.cur) && Measure(src, r.value) <= Measure(src, p)
  {
    if p.la.kind == n then GetS(src, p) else Ok(SynErrS(p, n))
  }

  /** `Get` consumes the lookahead and counts one more token since the last
      error; `SynErr` reports exactly when that count has reached
      `minErrDist`, and restarts it. */
  lemma {:induction false} ErrorSuppression(src: Source, p: PState, n: int)
    requires Fits(src, p.cur)
    ensures GetS(src, p).Ok? ==>
              var q := GetS(src, p).value;
              q.t == p.la && q.errDist == p.errDist + 1 && q.reported == p.reported
              && (q.la, q.cur) == NextToken(src, p.cur).value
    ensures var q := SynErrS(p, n);
      && q.errDist == 0 && q.la == p.la && q.cur == p.cur && q.inputs == p.inputs
      && (|q.reported| == |p.reported| + 1 <==> p.errDist >= minErrDist)
      && (p.errDist >= minErrDist ==> q.reported[|p.reported|] == SynError(p.la.line, p.la.col, n))
      && (p.errDist < minErrDist ==> q.reported == p.reported)
  {
  }

  /** `Expect(n)` consumes the lookahead only when its kind is `n`; otherwise
      it leaves the lookahead in place and reports `n` unless an error was
      reported fewer than `minErrDist` tokens ago. */
  lemma {:induction false} ExpectBehaviour(src: Source, p: PState, n: int)
    requires Fits(src, p.cur)
    ensures p.la.kind == n ==> ExpectS(src, p, n) == GetS(src, p)
    ensures p.la.kind != n ==> ExpectS(src, p, n) == Ok(SynErrS(p, n))
    ensures p.la.kind != n ==> ExpectS(src, p, n).value.la == p.la && ExpectS(src, p, n).value.cur == p.cur
    ensures ExpectS(src, p, n).Ok? ==> ExpectS(src, p, n).value.inputs == p.inputs
  {
  }

  // ---------------------------------------------------------------------------
  // TimedInput and TimedSequence
  // ---------------------------------------------------------------------------

  /** `Direction(out dir)`: kinds 1 to 6; any other lookahead is reported
      as error 18 and not consumed. */
  function DirectionS(src: Source, p: PState): (r: Result<(string, PState)>)
    requires Fits(src, p.cur)
    ensures r.Ok? ==> Fits(src, r.value.1.cur) && Measure(src, r.value.1) <= Measure(src, p)
    ensures r.Ok? && 1 <= p.la.kind <= 6 ==> Measure(src, r.value.1) < Measure(src, p)
  {
    if 1 <= p.la.kind <= 6 then
      var q := GetS(src, p);
      if q.Throw? then Throw(q.message) else Ok((Literal(p.la.kind), q.value))
    else Ok(("", SynErrS(p, 18)))
  }

  /** `Button(out btn)`: kinds 7 to 12; otherwise error 19. */
  function ButtonS(src: Source, p: PState): (r: Result<(string, PState)>)
    requires Fits(src, p.cur)
    ensures r.Ok? ==> Fits(src, r.value.1.cur) && Measure(src, r.value.1) <= Measure(src, p)
    ensures r.Ok? && 7 <= p.la.kind <= 12 ==> Measure(src, r.value.1) < Measure(src, p)
  {
    if 7 <= p.la.kind <= 12 then
      var q := GetS(src, p);
      if q.Throw? then Throw(q.message) else Ok((Literal(p.la.kind), q.value))
    else Ok(("", SynErrS(p, 19)))
  }

  /** The command `TimedInput` reads: a direction, a button, or else error
      17 with the command left empty and the lookahead not consumed. */
  function CommandS(src: Source, p: PState): (r: Result<(string, PState)>)
    requires Fits(src, p.cur)
    ensures r.Ok? ==> Fits(src, r.value.1.cur) && Measure(src, r.value.1) <= Measure(src, p)
    ensures r.Ok? && 1 <= p.la.kind <= 12 ==> Measure(src, r.value.1) < Measure(src, p)
  {
    if 1 <= p.la.kind <= 6 then DirectionS(src, p)
    else if 7 <= p.la.kind <= 12 then ButtonS(src, p)
    else Ok(("", SynErrS(p, 17)))
  }

  /** `TimedInput()`: a command, then an optional TIMING token, and one
      entry appended. `now` stands for the clock reading `new TimedInput`
      stores as its timestamp. */
  function TimedInputS(src: Source, p: PState, now: int): (r: Result<PState>)
    requires Fits(src, p.cur)
    ensures r.Ok? ==> Fits(src, r.value.cur) && Measure(src, r.value) <= Measure(src, p)
    ensures r.Ok? && 1 <= p.la.kind <= 12 ==> Measure(src, r.value) < Measure(src, p)
  {
    var c := CommandS(src, p);
    if c.Throw? then Throw(c.message)
    else
      var (command, q) := c.value;
      if q.la.kind == 13 then
        var g := GetS(src, q);
        if g.Throw? then Throw(g.message)
        else
          var timing := TimingOf(q.la.val);
          if timing.Throw? then Throw(timing.message)
          else Ok(g.value.(inputs := g.value.inputs + [ParsedInput(command, timing.value, now)]))
      else Ok(q.(inputs := q.inputs + [ParsedInput(command, 0, now)]))
  }

  /** The `while (StartOf(1))` loop of `TimedSequence`: one more input while
      the lookahead is a direction or a button. */
  function TimedLoopS(src: Source, p: PState, now: int): (r: Result<PState>)
    requires Fits(src, p.cur)
    ensures r.Ok? ==> Fits(src, r.value.cur)
    decreases Measure(src, p)
  {
    if 1 <= p.la.kind <= 12 then
      var q := TimedInputS(src, p, now);
      if q.Throw? then q else TimedLoopS(src, q.value, now)
    else Ok(p)
  }

  /** `TimedSequence()`: one input, then the loop. */
  function TimedSequenceS(src: Source, p: PState, now: int): (r: Result<PState>)
    requires Fits(src, p.cur)
    ensures r.Ok? ==> Fits(src, r.value.cur)
  {
    var q := TimedInputS(src, p, now);
    if q.Throw? then q else TimedLoopS(src, q.value, now)
  }

  /** One input consumes the lookahead when it is a command, and always
      appends exactly one entry whose command is that keyword's name (empty
      for any other token) and whose timing is the digits of a following
      TIMING token, or 0 without one. */
  lemma {:induction false} TimedInputAppendsOne(src: Source, p: PState, now: int)
    requires Fits(src, p.cur) && TimedInputS(src, p, now).Ok?
    ensures var q := TimedInputS(src, p, now).value;
      && q.inputs[..|p.inputs|] == p.inputs && |q.inputs| == |p.inputs| + 1
      && q.inputs[|p.inputs|].command == (if 1 <= p.la.kind <= 12 then Literal(p.la.kind) else "")
      && q.inputs[|p.inputs|].millisecondsSincePrevious == 0
      && var r := CommandS(src, p).value.1;
      && (r.la.kind == 13 ==> Ok(q.inputs[|p.inputs|].timingMs) == TimingOf(r.la.val))
      && (r.la.kind != 13 ==> q.inputs[|p.inputs|].timingMs == 0 && q.la == r.la)
  {
    var c := CommandS(src, p).value;
    var q := TimedInputS(src, p, now).value;
    var e := q.inputs[|p.inputs|];
    if c.1.la.kind == 13 {
      assert q.inputs == GetS(src, c.1).value.inputs + [e];
    } else {
      assert q.inputs == c.1.inputs + [e];
    }
  }

  /** A lookahead that is neither a direction nor a button is reported as
      error 17 (unless an error was just reported) and stays the lookahead. */
  lemma {:induction false} InvalidInputNotConsumed(src: Source, p: PState)
    requires Fits(src, p.cur) && !(1 <= p.la.kind <= 12)
    ensures CommandS(src, p) == Ok(("", SynErrS(p, 17)))
    ensures SynErrS(p, 17).la == p.la && SynErrS(p, 17).cur == p.cur
  {
  }

  /** The loop adds inputs after the ones it found and stops at a lookahead
      that is neither a direction nor a button. */
  lemma {:induction false} TimedLoopStops(src: Source, p: PState, now: int)
    requires Fits(src, p.cur) && TimedLoopS(src, p, now).Ok?
    ensures var q := TimedLoopS(src, p, now).value;
      && !(1 <= q.la.kind <= 12)
      && |p.inputs| <= |q.inputs| && q.inputs[..|p.inputs|] == p.inputs
    decreases Measure(src, p)
  {
    if 1 <= p.la.kind <= 12 {
      var q := TimedInputS(src, p, now).value;
      TimedInputAppendsOne(src, p, now);
      TimedLoopStops(src, q, now);
      var r := TimedLoopS(src, q, now).value;
      assert r.inputs[..|p.inputs|] == r.inputs[..|q.inputs|][..|p.inputs|];
    }
  }

  /** A reported syntax error is never withdrawn: one input keeps the
      reports and may add to them. */
  lemma {:induction false} TimedInputKeepsReports(src: Source, p: PState, now: int)
    requires Fits(src, p.cur) && TimedInputS(src, p, now).Ok?
    ensures p.reported <= TimedInputS(src, p, now).value.reported
  {
    var c := CommandS(src, p).value;
    assert p.reported <= c.1.reported;
  }

  /** The same for the loop of `TimedSequence`. */
  lemma {:induction false} TimedLoopKeepsReports(src: Source, p: PState, now: int)
    requires Fits(src, p.cur) && TimedLoopS(src, p, now).Ok?
    ensures p.reported <= TimedLoopS(src, p, now).value.reported
    decreases Measure(src, p)
  {
    if 1 <= p.la.kind <= 12 {
      var q := TimedInputS(src, p, now).value;
      TimedInputKeepsReports(src, p, now);
      TimedLoopKeepsReports(src, q, now);
    }
  }

  /** What `Expect(SEQUENCE_START)` has reported stays reported through the
      rest of `MortalKombat`. */
  lemma {:induction false} MortalKombatKeepsReports(src: Source, p: PState, now: int)
    requires Fits(src, p.cur) && MortalKombatS(src, p, now).Ok?
    ensures var p1 := ExpectS(src, p.(result := p.result.(success := true)), 14);
      p1.Ok? && p1.value.reported <= MortalKombatS(src, p, now).value.reported
  {
    var p1 := ExpectS(src, p.(result := p.result.(success := true)), 14).value;
    var p2 := p1.(inputs := []);
    var q := TimedInputS(src, p2, now).value;
    TimedInputKeepsReports(src, p2, now);
    TimedLoopKeepsReports(src, q, now);
    var p3 := TimedSequenceS(src, p2, now).value;
    var p4 := ExpectS(src, p3, 15).value;
    assert p3.reported <= p4.reported;
    var checked := ValidateTimingsS(p4.inputs, p4.result);
    if checked.success {
      var code := GenerateS(p4.inputs, IdentifyS(p4.inputs, checked));
      assert MortalKombatS(src, p, now) == Ok(p4.(result := code.value));
    } else {
      assert MortalKombatS(src, p, now) == Ok(p4.(result := checked));
    }
  }

  /** No entry carries a `MillisecondsSincePrevious`: the parser writes its
      delays to `TimingMs` only. */
  predicate NoGaps(s: seq<TimedInput>) {
    forall i :: 0 <= i < |s| ==> s[i].millisecondsSincePrevious == 0
  }

  /** The loop adds only entries without a `MillisecondsSincePrevious`. */
  lemma {:induction false} TimedLoopNoGaps(src: Source, p: PState, now: int)
    requires Fits(src, p.cur) && TimedLoopS(src, p, now).Ok? && NoGaps(p.inputs)
    ensures NoGaps(TimedLoopS(src, p, now).value.inputs)
    decreases Measure(src, p)
  {
    if 1 <= p.la.kind <= 12 {
      var q := TimedInputS(src, p, now).value;
      TimedInputAppendsOne(src, p, now);
      assert q.inputs == p.inputs + [q.inputs[|p.inputs|]];
      TimedLoopNoGaps(src, q, now);
    }
  }

  /** The same for `TimedSequence`, which starts from an empty list. */
  lemma {:induction false} TimedSequenceNoGaps(src: Source, p: PState, now: int)
    requires Fits(src, p.cur) && TimedSequenceS(src, p, now).Ok? && p.inputs == []
    ensures NoGaps(TimedSequenceS(src, p, now).value.inputs)
  {
    var q := TimedInputS(src, p, now).value;
    TimedInputAppendsOne(src, p, now);
    TimedLoopNoGaps(src, q, now);
  }

  /** What `MortalKombat` leaves in `inputSequence` is what `TimedSequence`
      read. */
  lemma {:induction false} MortalKombatNoGaps(src: Source, p: PState, now: int)
    requires Fits(src, p.cur) && MortalKombatS(src, p, now).Ok?
    ensures NoGaps(MortalKombatS(src, p, now).value.inputs)
  {
    var p1 := ExpectS(src, p.(result := p.result.(success := true)), 14).value;
    var p2 := TimedSequenceS(src, p1.(inputs := []), now).value;
    TimedSequenceNoGaps(src, p1.(inputs := []), now);
    ExpectBehaviour(src, p2, 15);
    assert MortalKombatS(src, p, now).value.inputs == ExpectS(src, p2, 15).value.inputs;
  }

  /** Every entry a successful parse leaves in `inputSequence` has
      `MillisecondsSincePrevious` 0. */
  lemma {:induction false} ParseNoGaps(src: Source, p: PState, now: int)
    requires Fits(src, p.cur) && ParseS(src, p, now).Ok?
    ensures NoGaps(ParseS(src, p, now).value.inputs)
  {
    var p1 := GetS(src, p.(la := NoToken)).value;
    var p2 := MortalKombatS(src, p1, now).value;
    MortalKombatNoGaps(src, p1, now);
    ExpectBehaviour(src, p2, 0);
  }

  // ---------------------------------------------------------------------------
  // Semantic actions
  // ---------------------------------------------------------------------------

  /** The errors of `ValidateTimings` for the inputs before `n`; the first
      input is never checked. */
  function TimingChecks(s: seq<TimedInput>, n: nat): seq<CheckError>
    requires n <= |s|
  {
    if n == 0 then []
    else
      var i, ms := n - 1, s[n - 1].timingMs as int;
      TimingChecks(s, n - 1)
      + (if i > 0 && ms > PARSER_TIMEOUT_MS then [Timeout(i, ms)] else [])
      + (if i > 0 && ms < PARSER_DEBOUNCE_MS then [TooFast(i, ms)] else [])
  }

  /** `ValidateTimings()`: each error clears `Success`. */
  function ValidateTimingsS(s: seq<TimedInput>, res: ParseResult): ParseResult {
    var errs := TimingChecks(s, |s|);
    res.(errors := res.errors + errs, success := res.success && errs == [])
  }

  /** The checks find nothing exactly when every input after the first has
      a `TimingMs` within [50, 2000]. */
  lemma {:induction false} TimingChecksEmpty(s: seq<TimedInput>, n: nat)
    requires n <= |s|
    ensures TimingChecks(s, n) == [] <==>
              forall i :: 1 <= i < n ==> PARSER_DEBOUNCE_MS <= s[i].timingMs <= PARSER_TIMEOUT_MS
  {
    if n > 0 {
      TimingChecksEmpty(s, n - 1);
      var i, ms := n - 1, s[n - 1].timingMs as int;
      var a := TimingChecks(s, n - 1);
      var b := if i > 0 && ms > PARSER_TIMEOUT_MS then [Timeout(i, ms)] else [];
      var c := if i > 0 && ms < PARSER_DEBOUNCE_MS then [TooFast(i, ms)] else [];
      assert TimingChecks(s, n) == a + b + c;
      assert |a + b + c| == |a| + |b| + |c|;
      assert b + c == [] <==> (i > 0 ==> PARSER_DEBOUNCE_MS <= s[i].timingMs <= PARSER_TIMEOUT_MS);
    }
  }

  /** Every error names a position after the first and its out-of-range value. */
  lemma {:induction false} TimingChecksSound(s: seq<TimedInput>, n: nat, e: CheckError)
    requires n <= |s| && e in TimingChecks(s, n)
    ensures !e.NoMatch? && 1 <= e.position < n && e.ms == s[e.position].timingMs
    ensures e.Timeout? ==> e.ms > PARSER_TIMEOUT_MS
    ensures e.TooFast? ==> e.ms < PARSER_DEBOUNCE_MS
  {
    if n > 0 {
      var i, ms := n - 1, s[n - 1].timingMs as int;
      var a := TimingChecks(s, n - 1);
      var b := if i > 0 && ms > PARSER_TIMEOUT_MS then [Timeout(i, ms)] else [];
      var c := if i > 0 && ms < PARSER_DEBOUNCE_MS then [TooFast(i, ms)] else [];
      assert TimingChecks(s, n) == a + b + c;
      if e in a {
        TimingChecksSound(s, n - 1, e);
      }
    }
  }

  /** `CyraxMoves`, the parser's own dictionary, in insertion order (the
      order a `Dictionary` without removals enumerates). */
  const CyraxMoves: seq<(string, seq<string>)> := [
    ("FATALITY_SELF_DESTRUCT", ["DOWN", "DOWN", "UP", "DOWN", "HP"]),
    ("FATALITY_HELICOPTER", ["DOWN", "DOWN", "FORWARD", "UP", "RUN"]),
    ("BRUTALITY_CYRAX", ["HP", "LK", "HK", "HK", "LP", "LP", "HP", "LP", "LK", "HK", "LK"])]

  /** `IdentifyMove()`. */
  function IdentifyS(s: seq<TimedInput>, res: ParseResult): ParseResult {
    var m := FirstMatch(CyraxMoves, Commands(s));
    if m.None? then res.(errors := res.errors + [NoMatch], success := false)
    else
      var key := m.value.0;
      res.(success := true, validatedSequence := Some(s),
           moveType := if KeyType(key).Some? then KeyType(key) else res.moveType,
           moveName := if KeyName(key).Some? then KeyName(key) else res.moveName)
  }

  /** `GenerateIntermediateCode()`: nothing unless `Success`; the sum of
      `TimingMs` is LINQ's checked `Sum`. */
  function GenerateS(s: seq<TimedInput>, res: ParseResult): Result<ParseResult> {
    if !res.success then Ok(res)
    else
      var total := CheckedSum(Timings(s));
      if total.Throw? then Throw(total.message)
      else Ok(res.(generatedCode := Some(CodeGen.Lines(CodeLines(res.moveType, res.moveName, s, total.value)))))
  }

  // ---------------------------------------------------------------------------
  // MortalKombat and Parse
  // ---------------------------------------------------------------------------

  /** `MortalKombat()`: SEQUENCE_START, the inputs, SEQUENCE_END, then the
      semantic actions; the matcher and the emitter run only when the timing
      check has left `Success` set. */
  function MortalKombatS(src: Source, p: PState, now: int): (r: Result<PState>)
    requires Fits(src, p.cur)
    ensures r.Ok? ==> Fits(src, r.value.cur)
  {
    var p1 := ExpectS(src, p.(result := p.result.(success := true)), 14);
    if p1.Throw? then p1
    else
      var p2 := TimedSequenceS(src, p1.value.(inputs := []), now);
      if p2.Throw? then p2
      else
        var p3 := ExpectS(src, p2.value, 15);
        if p3.Throw? then p3
        else
          var q := p3.value;
          var checked := ValidateTimingsS(q.inputs, q.result);
          if checked.success then
            var code := GenerateS(q.inputs, IdentifyS(q.inputs, checked));
            if code.Throw? then Throw(code.message) else Ok(q.(result := code.value))
          else Ok(q.(result := checked))
  }

  /** `Parse()`: a fresh lookahead, the first token, the start symbol, EOF. */
  function ParseS(src: Source, p: PState, now: int): (r: Result<PState>)
    requires Fits(src, p.cur)
    ensures r.Ok? ==> Fits(src, r.value.cur)
  {
    var p1 := GetS(src, p.(la := NoToken));
    if p1.Throw? then p1
    else
      var p2 := MortalKombatS(src, p1.value, now);
      if p2.Throw? then p2 else ExpectS(src, p2.value, 0)
  }

  /** What a new parser over a new scanner on `src` ends with. */
  function ParseSource(src: Source, now: int): Result<PState> {
    var init := Init(src);
    if init.Throw? then Throw(init.message) else ParseS(src, Start(init.value), now)
  }

  /** After the syntax part, the outcome follows the three stages: timing
      errors clear `Success` and stop there; then a match sets it, with the
      validated sequence, and no match adds the one error. */
  lemma {:induction false} SemanticOutcome(s: seq<TimedInput>, res: ParseResult)
    requires res.success
    ensures var checked := ValidateTimingsS(s, res);
      && (checked.success <==> forall i :: 1 <= i < |s| ==> PARSER_DEBOUNCE_MS <= s[i].timingMs <= PARSER_TIMEOUT_MS)
      && var m := IdentifyS(s, checked);
      && (m.success <==> exists i :: 0 <= i < |CyraxMoves| && CyraxMoves[i].1 == Commands(s))
      && (m.success ==> m.validatedSequence == Some(s) && m.errors == checked.errors)
      && (!m.success ==> m.errors == checked.errors + [NoMatch])
  {
    TimingChecksEmpty(s, |s|);
    var checked := ValidateTimingsS(s, res);
    if !(exists i :: 0 <= i < |CyraxMoves| && CyraxMoves[i].1 == Commands(s)) {
      assert FirstMatch(CyraxMoves, Commands(s)).None?;
    }
  }

  /** The parser's dictionary holds the catalog's three sequences, in the
      catalog's order and under its ids. */
  lemma ParserCatalogAgrees()
    ensures |CyraxMoves| == |Catalog.AllMoves|
    ensures forall i :: 0 <= i < |CyraxMoves| ==>
              CyraxMoves[i].0 == Catalog.AllMoves[i].id && CyraxMoves[i].1 == Catalog.AllMoves[i].sequence
  {
  }

  // ---------------------------------------------------------------------------
  // The parser object
  // ---------------------------------------------------------------------------

  /** `Errors`: the count the facade reads and the reported (line, column,
      number) triples; the console output is not modelled. */
  class Errors {
    var count: int
    var reported: seq<SynError>

    constructor ()
      ensures count == 0 && reported == []
    {
      count := 0;
      reported := [];
    }

    method SynErr(line: int, col: int, n: int)
      modifies this
      ensures count == old(count) + 1 && reported == old(reported) + [SynError(line, col, n)]
    {
      reported := reported + [SynError(line, col, n)];
      count := count + 1;
    }
  }

  /** `Parser`. The scanner it reads from is represented by its source and
      its position: `Get` takes the next token as `Lexer.NextToken`, the
      function `Scanning.Scanner.ScanIdle` is proved to compute. */
  class Parser {
    const src: Source
    var cur: Cursor
    const errors: Errors
    var t: Token
    var la: Token
    var errDist: int
    var inputSequence: seq<TimedInput>
    var result: ParseResult

    /** The position is one the scanner can stand at, and the error count
        matches the reports. */
    ghost predicate Valid()
      reads this, errors
    {
      Fits(src, cur) && errors.count == |errors.reported|
    }

    ghost function State(): PState
      reads this, errors
    {
      PState(cur, t, la, errDist, errors.reported, inputSequence, result)
    }

    /** The method ended as the spec value says: with its exception, or
        normally in that state. */
    ghost predicate Done(o: Outcome, s: Result<PState>)
      reads this, errors
    {
      (s.Throw? ==> o == Exception(s.message)) && (s.Ok? ==> o.Normal? && Valid() && State() == s.value)
    }

    ghost predicate DoneWith(o: Outcome, v: string, s: Result<(string, PState)>)
      reads this, errors
    {
      (s.Throw? ==> o == Exception(s.message)) && (s.Ok? ==> o.Normal? && Valid() && (v, State()) == s.value)
    }

    /** `new Parser(scanner)`, over a scanner at `cur` in `src`. */
    constructor (src: Source, cur: Cursor)
      requires Fits(src, cur)
      ensures this.src == src && fresh(errors)
      ensures Valid() && State() == Start(cur)
    {
      this.src, this.cur := src, cur;
      errors := new Errors();
      t, la := NoToken, NoToken;
      errDist := minErrDist;
      inputSequence := [];
      result := NewResult;
    }

    method Get() returns (o: Outcome)
      requires Valid()
      modifies this
      ensures Done(o, GetS(src, old(State())))
    {
      var next := NextToken(src, cur);
      if next.Throw? {
        return Exception(next.message);
      }
      t, la, cur, errDist := la, next.value.0, next.value.1, errDist + 1;
      o := Normal;
    }

    method SynErr(n: int)
      requires Valid()
      modifies this, errors
      ensures Valid() && State() == SynErrS(old(State()), n)
    {
      if errDist >= minErrDist {
        errors.SynErr(la.line, la.col, n);
      }
      errDist := 0;
    }

    method Expect(n: int) returns (o: Outcome)
      requires Valid()
      modifies this, errors
      ensures Done(o, ExpectS(src, old(State()), n))
    {
      if la.kind == n {
        o := Get();
      } else {
        SynErr(n);
        o := Normal;
      }
    }

    method Direction() returns (dir: string, o: Outcome)
      requires Valid()
      modifies this, errors
      ensures DoneWith(o, dir, DirectionS(src, old(State())))
    {
      dir := "";
      if 1 <= la.kind <= 6 {
        var kind := la.kind;
        o := Get();
        if o.Exception? {
          return;
        }
        dir := Literal(kind);
      } else {
        SynErr(18);
        o := Normal;
      }
    }

    method Button() returns (btn: string, o: Outcome)
      requires Valid()
      modifies this, errors
      ensures DoneWith(o, btn, ButtonS(src, old(State())))
    {
      btn := "";
      if 7 <= la.kind <= 12 {
        var kind := la.kind;
        o := Get();
        if o.Exception? {
          return;
        }
        btn := Literal(kind);
      } else {
        SynErr(19);
        o := Normal;
      }
    }

    /** The `if`/`else if`/`else` that opens `TimedInput`. */
    method Command() returns (command: string, o: Outcome)
      requires Valid()
      modifies this, errors
      ensures DoneWith(o, command, CommandS(src, old(State())))
    {
      if 1 <= la.kind <= 6 {
        command, o := Direction();
      } else if 7 <= la.kind <= 12 {
        command, o := Button();
      } else {
        command := "";
        SynErr(17);
        o := Normal;
      }
    }

    method TimedInput(now: int) returns (o: Outcome)
      requires Valid()
      modifies this, errors
      ensures Done(o, TimedInputS(src, old(State()), now))
    {
      var command;
      command, o := Command();
      if o.Exception? {
        return;
      }
      var timing: int32 := 0;
      if la.kind == 13 {
        o := Get();
        if o.Exception? {
          return;
        }
        var value := TimingOf(t.val);
        if value.Throw? {
          return Exception(value.message);
        }
        timing := value.value;
      }
      inputSequence := inputSequence + [ParsedInput(command, timing, now)];
      o := Normal;
    }

    method TimedSequence(now: int) returns (o: Outcome)
      requires Valid()
      modifies this, errors
      ensures Done(o, TimedSequenceS(src, old(State()), now))
    {
      ghost var goal := TimedSequenceS(src, State(), now);
      o := TimedInput(now);
      if o.Exception? {
        return;
      }
      while 1 <= la.kind <= 12
        invariant o == Normal && Valid() && goal == TimedLoopS(src, State(), now)
        decreases Measure(src, State())
      {
        ghost var p := State();
        assert TimedLoopS(src, p, now) == (var q := TimedInputS(src, p, now); if q.Throw? then q else TimedLoopS(src, q.value, now));
        o := TimedInput(now);
        if o.Exception? {
          return;
        }
      }
    }

    /** `ValidateTimings()`. */
    method ValidateTimings()
      modifies this`result
      ensures result == ValidateTimingsS(inputSequence, old(result))
    {
      var s, res := inputSequence, result;
      for i := 0 to |s|
        invariant res.errors == result.errors + TimingChecks(s, i)
        invariant res.success == (result.success && TimingChecks(s, i) == [])
        invariant res == result.(errors := res.errors, success := res.success)
      {
        var input := s[i];
        if i > 0 && input.timingMs as int > PARSER_TIMEOUT_MS {
          res := res.(errors := res.errors + [Timeout(i, input.timingMs as int)], success := false);
        }
        if i > 0 && input.timingMs as int < PARSER_DEBOUNCE_MS {
          res := res.(errors := res.errors + [TooFast(i, input.timingMs as int)], success := false);
        }
      }
      result := res;
    }

    /** `IdentifyMove()`: the `foreach` over the dictionary. */
    method IdentifyMove()
      modifies this`result
      ensures result == IdentifyS(inputSequence, old(result))
    {
      var commands := Commands(inputSequence);
      for i := 0 to |CyraxMoves|
        invariant forall j :: 0 <= j < i ==> CyraxMoves[j].1 != commands
        invariant result == old(result)
      {
        var (key, value) := CyraxMoves[i];
        if commands == value {
          assert FirstMatch(CyraxMoves, commands) == Some(CyraxMoves[i]) by {
            FirstMatchAt(CyraxMoves, commands, i);
          }
          result := result.(success := true, validatedSequence := Some(inputSequence));
          if StartsWith(key, "FATALITY") {
            result := result.(moveType := Some("FATALITY"),
                              moveName := Some(Replace(Replace(key, "FATALITY_", ""), "_", " ")));
          } else if StartsWith(key, "BRUTALITY") {
            result := result.(moveType := Some("BRUTALITY"),
                              moveName := Some(Replace(Replace(key, "BRUTALITY_", ""), "_", " ")));
          }
          return;
        }
      }
      result := result.(errors := result.errors + [NoMatch], success := false);
    }

    /** `GenerateIntermediateCode()`. */
    method GenerateIntermediateCode() returns (o: Outcome)
      modifies this`result
      ensures GenerateS(inputSequence, old(result)).Throw? ==> o == Exception(GenerateS(inputSequence, old(result)).message)
      ensures GenerateS(inputSequence, old(result)).Ok? ==> o.Normal? && result == GenerateS(inputSequence, old(result)).value
    {
      if !result.success {
        return Normal;
      }
      var s := inputSequence;
      var code := EmitEntries(result.moveType, result.moveName, s);
      var total := CheckedSum(Timings(s));
      if total.Throw? {
        return Exception(total.message);
      }
      CodeGen.LinesAppend(CodeHeader(result.moveType, result.moveName, |s|) + EntryLines(s), CodeFooter(total.value));
      code := code + CodeGen.Lines(CodeFooter(total.value));
      result := result.(generatedCode := Some(code));
      o := Normal;
    }

    method MortalKombat(now: int) returns (o: Outcome)
      requires Valid()
      modifies this, errors
      ensures Done(o, MortalKombatS(src, old(State()), now))
    {
      result := result.(success := true);
      o := Expect(14);
      if o.Exception? {
        return;
      }
      inputSequence := [];
      o := TimedSequence(now);
      if o.Exception? {
        return;
      }
      o := Expect(15);
      if o.Exception? {
        return;
      }
      ValidateTimings();
      if result.success {
        IdentifyMove();
        o := GenerateIntermediateCode();
      }
    }

    method Parse(now: int) returns (o: Outcome)
      requires Valid()
      modifies this, errors
      ensures Done(o, ParseS(src, old(State()), now))
    {
      la := NoToken;
      o := Get();
      if o.Exception? {
        return;
      }
      o := MortalKombat(now);
      if o.Exception? {
        return;
      }
      o := Expect(0);
    }
  }
}

/** The wording of the parser's semantic errors. */
module GenParserText {
  import opened Base
  import opened GenParser

  function Text(e: CheckError): string {
    match e
    case Timeout(i, ms) =>
      "Error: Timeout excedido en input " + IntToString(i + 1) + ". "
      + "Tiempo: " + IntToString(ms) + "ms, Máximo: " + IntToString(PARSER_TIMEOUT_MS) + "ms"
    case TooFast(i, ms) =>
      "Error: Inputs demasiado rápidos en posición " + IntToString(i + 1) + ". "
      + "Tiempo: " + IntToString(ms) + "ms, Mínimo: " + IntToString(PARSER_DEBOUNCE_MS) + "ms"
    case NoMatch => "Error: Secuencia no coincide con ninguna fatality o brutality conocida."
  }
}
