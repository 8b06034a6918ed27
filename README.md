# MortalKombatCompiler in Dafny

This project models the combo compiler of MortalKombatCompiler. The compiler reads controller input sequences for Cyrax, checks their timing, matches them against a catalog of moves and generates code for the move. The model also covers the helpers around the compiler: the serialiser that writes captured inputs back as source text, the capture buffer, and the pure parts of the React client.

Each source file becomes a module. Code that changes state step by step (the scanner and its buffer, both parsers, the validators, the generators, the capture buffer, the client's state updates) is modelled as classes and loops. Each of these methods is proved against a pure specification function, and the properties the source promises are proved as lemmas about those functions.

- `ScanBuffer` and `Lexer`/`Scanning` model `Scanner.cs`. `Buffer` is a byte window over the stream. A non-seekable stream grows the window in place by doubling. `Lexer` is the specification of the hand-unrolled automaton, covering the 14 literals, `T:` plus digits, noSym and EOF. It also specifies line and column counting and the UTF-8 byte order mark (section 6 of RFC 3629). `Scanning.Scanner` is the class, with its arrays and peek list. The two parsers use the same token numbering, so one scanner serves both.
- `GenParser` models the generated LL(1) parser: `errDist` error suppression, the productions, and its own timing check, matcher and code emitter. `ApiParser` models the deployed hand-written parser, which takes any token as a command and whose `Success` ignores timing errors. Each keeps its own catalog. The generated parser has three moves. The API parser and the client add FRIENDSHIP.
- `Timing`, `Catalog` and `Sequences` model the semantic stage. `CodeGen` models the intermediate code generator. `Facade` models `CompilerFacade`.
- `Converter` models `InputToSourceConverter`. `RoundTrip` proves that its plain text is read back by the scanner and the generated parser. `CaptureBuffer` models `InputBuffer`. `Client` models the client helpers.
- `Base` holds Int32 sums with checked overflow, decimal text and the `Result`/`Option`/`Outcome` wrappers. Exceptions become `Throw`/`Exception` values.
- `Models` holds `TimedInput` with both delay fields. `TimedInput.cs` keeps the delay in two fields: the parsers write `TimingMs`, while the timing validator and the generator read `MillisecondsSincePrevious`. Entries that come from source text therefore always have a `MillisecondsSincePrevious` of 0. The model keeps this, and it proves what follows from it: `CompileFromSource` fails the debounce check for every source with two inputs or more (`Facade.ZeroGapFails`, `RoundTrip.ConvertedSourceCompiles`).
- The timing constants are 2000, 50 and 10000 ms. They come from `TimingConstants.cs` and from the generated parser's own copies.

Clock readings (`DateTime.Now`, `Date.now`) are parameters: `now` for timestamps and `date` or `compiledAt` for formatted dates.

Behaviour of the code that the model keeps:

- `CodeGen.Generate` and `CodeGen.GenerateTextFormat` throw exactly when the checked Int32 `Sum` of the delays overflows.
- The generator's text starts with `//` comment lines. The scanner has no comment state and reads `/` as noSym, so only the converter's plain text round-trips (`RoundTrip.RoundTrip`). The converter's commented text never compiles (`RoundTrip.CommentedNotCompiled`).
- `CompileFromSource` fails for every source with two inputs or more, even the text of a catalog move with valid delays, because the parsed delays land in `TimingMs` only (`RoundTrip.ConvertedSourceCompiles`).
- The API parser records timing errors, but its `Success` depends only on the match (`ApiParser.IdentifyOutcome`).
- A `T:` digit run that overflows Int32 makes `int.Parse` throw, and the exception ends the parse (`MoveCode.TimingOf`, `RoundTrip.RoundTrip`).

## Model

| member | source | states |
|---|---|---|
| ScanBuffer.ByteAt | src/MortalKombatCompiler.Backend/MortalKombatCompiler.API/Compiler/Scanner.cs:78-97 | The byte at a position is a value 0..255 inside the data and EOF (65536) exactly outside it. |
| ScanBuffer.Buffer.constructor | src/MortalKombatCompiler.Backend/MortalKombatCompiler.API/Compiler/Scanner.cs:34-53 | A new buffer holds the stream. Pos is Int32.MaxValue for an empty seekable stream and 0 otherwise. A seekable, non-user stream that fits the window is closed at once. |
| ScanBuffer.Buffer.Close | src/MortalKombatCompiler.Backend/MortalKombatCompiler.API/Compiler/Scanner.cs:69-76 | Only a user stream stays open; the window and positions are unchanged. |
| ScanBuffer.Buffer.ReadNextStreamChunk | src/MortalKombatCompiler.Backend/MortalKombatCompiler.API/Compiler/Scanner.cs:150-167 | A full buffer is replaced by one of twice the capacity. The bytes already held are kept. The number read is the free space (or the old length after doubling), capped by what the stream has left. |
| ScanBuffer.Buffer.SetPos | src/MortalKombatCompiler.Backend/MortalKombatCompiler.API/Compiler/Scanner.cs:121-147 | The Pos setter throws the out-of-bounds error for a value outside [0, fileLen]. At the end of a non-seekable stream it throws NotSupported from Seek. Otherwise Pos becomes the value; a failed call leaves Pos as it was. |
| ScanBuffer.Buffer.Read | src/MortalKombatCompiler.Backend/MortalKombatCompiler.API/Compiler/Scanner.cs:78-97 | Read returns the byte at the old Pos, or EOF at the end. Pos advances by one unless EOF was returned. |
| ScanBuffer.Buffer.Peek | src/MortalKombatCompiler.Backend/MortalKombatCompiler.API/Compiler/Scanner.cs:99-105 | Peek returns the byte Read would return and leaves Pos unchanged. It throws the errors of the Pos setter. |
| ScanBuffer.Buffer.GetString | src/MortalKombatCompiler.Backend/MortalKombatCompiler.API/Compiler/Scanner.cs:107-116 | Returns the characters of the bytes in [beg, end) and restores Pos. A reversed range throws overflow, and a start outside the data throws out of bounds. |
| Lexer.NextCh | src/MortalKombatCompiler.Backend/MortalKombatCompiler.API/Compiler/Scanner.cs:245-255 | NextCh reads the next character. It counts a line and resets the column to 0 on LF, otherwise it adds one to the column. It throws only at a CR that ends a non-seekable stream. It consumes a byte unless at EOF, and stays at EOF once there. |
| Lexer.CrLfCountsOnce | src/MortalKombatCompiler.Backend/MortalKombatCompiler.API/Compiler/Scanner.cs:252-253 | CR followed by LF counts as one line break. |
| Lexer.LoneCrEndsLine | src/MortalKombatCompiler.Backend/MortalKombatCompiler.API/Compiler/Scanner.cs:252-253 | A CR not followed by LF is read as a line feed and ends the line. |
| Lexer.Init | src/MortalKombatCompiler.Backend/MortalKombatCompiler.API/Compiler/Scanner.cs:226-243 | Init gives a cursor inside the data. |
| Lexer.InitPlain | src/MortalKombatCompiler.Backend/MortalKombatCompiler.API/Compiler/Scanner.cs:228-241 | Without a byte order mark, scanning starts at the first byte on line 1, column 1. |
| Lexer.InitSkipsBom | src/MortalKombatCompiler.Backend/MortalKombatCompiler.API/Compiler/Scanner.cs:228-241 | The three bytes EF BB BF are skipped and scanning starts at the fourth byte on line 1, column 1. |
| Lexer.InitRejectsBadBom | src/MortalKombatCompiler.Backend/MortalKombatCompiler.API/Compiler/Scanner.cs:235-238 | A leading EF not followed by BB BF throws the illegal byte order mark error naming the two bytes. |
| Lexer.SkipWs | src/MortalKombatCompiler.Backend/MortalKombatCompiler.API/Compiler/Scanner.cs:282 | Skipping whitespace stops at a character that is not space, tab, CR or LF. It never moves backwards and does nothing when the current character is not whitespace. |
| Lexer.Lex | src/MortalKombatCompiler.Backend/MortalKombatCompiler.API/Compiler/Scanner.cs:284-462 | The token kind is in 0..16. The token is EOF exactly when its text is empty, and EOF consumes nothing. Every other token consumes at least one byte. |
| Lexer.NextToken | src/MortalKombatCompiler.Backend/MortalKombatCompiler.API/Compiler/Scanner.cs:280-463 | NextToken skips whitespace, then lexes one token. The cursor stays inside the data. |
| Lexer.KeywordToken | src/MortalKombatCompiler.Backend/MortalKombatCompiler.API/Compiler/Scanner.cs:305-459 | Each of the 14 literals (12 commands, SEQUENCE_START, SEQUENCE_END) yields its kind 1..12, 14 or 15, with the literal as its text, at the literal's position. It consumes exactly the literal. |
| Lexer.TimingToken | src/MortalKombatCompiler.Backend/MortalKombatCompiler.API/Compiler/Scanner.cs:383-392 | `T:` followed by a maximal run of digits yields kind 13 with text `T:` plus the digits. |
| Lexer.TimingTokenShape | src/MortalKombatCompiler.Backend/MortalKombatCompiler.API/Compiler/Scanner.cs:383-392 | Every kind-13 token has text `T:` followed by one or more digits. |
| Lexer.RunNotTiming | src/MortalKombatCompiler.Backend/MortalKombatCompiler.API/Compiler/Scanner.cs:390-392 | Kind 13 can come only from the T states, so the unreached SetScannerBehindT branch never produces a timing token. |
| Lexer.UnknownToken | src/MortalKombatCompiler.Backend/MortalKombatCompiler.API/Compiler/Scanner.cs:289-303 | A character that starts no keyword gives kind 16 (noSym) with that one character as its text. |
| Lexer.EofFixpoint | src/MortalKombatCompiler.Backend/MortalKombatCompiler.API/Compiler/Scanner.cs:265-269 | At the end of input the token is kind 0 with empty text, and the cursor does not move, so every later call gives EOF again. |
| Lexer.NextTokenText | src/MortalKombatCompiler.Backend/MortalKombatCompiler.API/Compiler/Scanner.cs:282 | A token's text contains no whitespace and spells the bytes at its position. A non-empty token ends the cursor right after its text. |
| Lexer.NextTokenProgress | src/MortalKombatCompiler.Backend/MortalKombatCompiler.API/Compiler/Scanner.cs:265-269 | No token moves the cursor back, and every non-EOF token consumes input. |
| Scanning.Scanner.constructor | src/MortalKombatCompiler.Backend/MortalKombatCompiler.API/Compiler/Scanner.cs:220-224 | A scanner over the stream is created with its buffer at the start position and a 128-character token buffer. |
| Scanning.Scanner.Open | src/MortalKombatCompiler.Backend/MortalKombatCompiler.API/Compiler/Scanner.cs:213-224 | Opening a scanner succeeds exactly when Init does and throws Init's message otherwise. An opened scanner sits at Init's cursor with no peeked tokens. |
| Scanning.Scanner.Init | src/MortalKombatCompiler.Backend/MortalKombatCompiler.API/Compiler/Scanner.cs:226-243 | Init leaves the cursor where the Init specification puts it, or throws its error. |
| Scanning.Scanner.NextCh | src/MortalKombatCompiler.Backend/MortalKombatCompiler.API/Compiler/Scanner.cs:245-255 | NextCh moves the cursor exactly as the NextCh specification does, or throws its error. |
| Scanning.Scanner.AddCh | src/MortalKombatCompiler.Backend/MortalKombatCompiler.API/Compiler/Scanner.cs:257-270 | AddCh doubles a full token buffer and keeps its contents. It appends the current character and reads the next one, as the AddCh specification says. |
| Scanning.Scanner.SkipWhitespace | src/MortalKombatCompiler.Backend/MortalKombatCompiler.API/Compiler/Scanner.cs:282 | The whitespace loop ends where the SkipWs specification stops. |
| Scanning.Scanner.ScanToken | src/MortalKombatCompiler.Backend/MortalKombatCompiler.API/Compiler/Scanner.cs:284-462 | The automaton returns the token and cursor of the Lex specification. |
| Scanning.Scanner.Automaton | src/MortalKombatCompiler.Backend/MortalKombatCompiler.API/Compiler/Scanner.cs:293-460 | The state loop from a start state gives the result of the Run specification. |
| Scanning.Scanner.NextToken | src/MortalKombatCompiler.Backend/MortalKombatCompiler.API/Compiler/Scanner.cs:280-463 | NextToken returns the token and cursor of the NextToken specification, or throws its error. |
| Scanning.Scanner.Scan | src/MortalKombatCompiler.Backend/MortalKombatCompiler.API/Compiler/Scanner.cs:473-484 | Scan returns the next token of the specification from the scanner's position, dropping a peeked token if there is one, and resets the peek position. |
| Scanning.Scanner.Peek | src/MortalKombatCompiler.Backend/MortalKombatCompiler.API/Compiler/Scanner.cs:486-497 | Peek returns the next token after those already peeked without moving the scan position. Tokens peeked earlier are kept. |
| Scanning.Scanner.ResetPeek | src/MortalKombatCompiler.Backend/MortalKombatCompiler.API/Compiler/Scanner.cs:499 | ResetPeek sets the peek position back to the scan position and changes nothing else. |
| GenParser.GetS | src/Compiler/Generated/Parser.cs:178-188 | Get never moves the scanner backwards. |
| GenParser.ErrorSuppression | src/Compiler/Generated/Parser.cs:166-170 | Get shifts the lookahead to `t`, reads the next token and adds one to errDist. SynErr records (line, col, n) exactly when errDist >= 2, then resets errDist to 0, leaving the lookahead in place. |
| GenParser.ExpectS | src/Compiler/Generated/Parser.cs:190-193 | Expect never moves the scanner backwards. |
| GenParser.ExpectBehaviour | src/Compiler/Generated/Parser.cs:190-193 | Expect(n) is Get when the lookahead has kind n. Otherwise it is SynErr(n), and the lookahead and scanner stay in place. The inputs are never changed. |
| GenParser.CommandS | src/Compiler/Generated/Parser.cs:254-266 | A Direction or Button consumes a token exactly when the lookahead is one of kinds 1..12. |
| GenParser.TimedInputAppendsOne | src/Compiler/Generated/Parser.cs:254-280 | Each TimedInput appends exactly one entry and keeps the earlier ones. The command is the literal of kinds 1..12, or empty. TimingMs is the value of a following TIMING token, or 0. MillisecondsSincePrevious stays 0. |
| GenParser.InvalidInputNotConsumed | src/Compiler/Generated/Parser.cs:258-266 | A token outside kinds 1..12 gives SynErr(17) and an empty command, and it is not consumed. |
| GenParser.TimedLoopStops | src/Compiler/Generated/Parser.cs:245-252 | The TimedSequence loop ends on a lookahead outside kinds 1..12 and only appends to the entries. |
| GenParser.MortalKombatKeepsReports | src/Compiler/Generated/Parser.cs:229-243 | Errors reported while parsing the program are never withdrawn. |
| GenParser.ParseNoGaps | src/Compiler/Generated/Parser.cs:274-278 | Every entry the parser produces has MillisecondsSincePrevious 0. |
| GenParser.TimingChecksEmpty | src/Compiler/Generated/Parser.cs:69-91 | The timing check finds nothing exactly when every position from the second on has TimingMs within [50, 2000]. |
| GenParser.TimingChecksSound | src/Compiler/Generated/Parser.cs:69-91 | Every timing error names a position >= 1 and its TimingMs. A timeout is > 2000 and a debounce error is < 50. |
| GenParser.SemanticOutcome | src/Compiler/Generated/Parser.cs:69-123 | After the timing check, Success holds iff all gaps are in range. After identification, Success holds iff the commands equal a catalog sequence. A match stores the sequence; no match adds one error. |
| GenParser.ParserCatalogAgrees | src/Compiler/Generated/Parser.cs:61-66 | The parser's own three moves have the ids and sequences of the catalog, in the same order. |
| GenParser.Errors.constructor | src/Compiler/Generated/Parser.cs:394-396 | A new error list has count 0 and no records. |
| GenParser.Errors.SynErr | src/Compiler/Generated/Parser.cs:400-430 | Each reported error adds one to count and one (line, col, n) record. |
| GenParser.Parser.constructor | src/Compiler/Generated/Parser.cs:160-164 | A new parser starts with errDist 2, no entries and a fresh result. |
| GenParser.Parser.Get | src/Compiler/Generated/Parser.cs:178-188 | Get changes the parser state as the GetS specification does, or throws the scanner's error. |
| GenParser.Parser.SynErr | src/Compiler/Generated/Parser.cs:166-170 | SynErr changes the state as SynErrS does. |
| GenParser.Parser.Expect | src/Compiler/Generated/Parser.cs:190-193 | Expect changes the state as ExpectS does. |
| GenParser.Parser.Direction | src/Compiler/Generated/Parser.cs:282-325 | Direction returns the command and state of DirectionS. |
| GenParser.Parser.Button | src/Compiler/Generated/Parser.cs:327-370 | Button returns the command and state of ButtonS. |
| GenParser.Parser.Command | src/Compiler/Generated/Parser.cs:254-266 | The Direction-or-Button choice returns the command and state of CommandS. |
| GenParser.Parser.TimedInput | src/Compiler/Generated/Parser.cs:254-280 | TimedInput changes the state as TimedInputS does. |
| GenParser.Parser.TimedSequence | src/Compiler/Generated/Parser.cs:245-252 | The loop changes the state as TimedSequenceS does. |
| GenParser.Parser.ValidateTimings | src/Compiler/Generated/Parser.cs:69-91 | ValidateTimings appends the timing errors and clears Success if there are any. |
| GenParser.Parser.IdentifyMove | src/Compiler/Generated/Parser.cs:93-123 | IdentifyMove sets type and name from the first matching key, or adds the no-match error. |
| GenParser.Parser.GenerateIntermediateCode | src/Compiler/Generated/Parser.cs:125-152 | Code is emitted as the GenerateS specification says, and a summed duration that overflows throws. |
| GenParser.Parser.MortalKombat | src/Compiler/Generated/Parser.cs:229-243 | The start production changes the state as MortalKombatS does. |
| GenParser.Parser.Parse | src/Compiler/Generated/Parser.cs:374-382 | Parse runs the start production and expects EOF, as ParseS does. |
| ApiParser.ScanS | src/MortalKombatCompiler.Backend/MortalKombatCompiler.API/Compiler/Parser.cs:51 | Scanning never moves backwards and never changes the entries. |
| ApiParser.TimedInputAppendsOne | src/MortalKombatCompiler.Backend/MortalKombatCompiler.API/Compiler/Parser.cs:63-84 | Each round appends one entry whose command is the current token's text, of any kind. TimingMs is the value of a following TIMING token, or 0. |
| ApiParser.LoopStops | src/MortalKombatCompiler.Backend/MortalKombatCompiler.API/Compiler/Parser.cs:54-57 | The loop stops only at SEQUENCE_END or EOF and only appends entries. |
| ApiParser.SequenceDelimiters | src/MortalKombatCompiler.Backend/MortalKombatCompiler.API/Compiler/Parser.cs:46-61 | A first token other than SEQUENCE_START throws the start message. Reaching EOF before SEQUENCE_END throws the end message. Tokens after SEQUENCE_END are not read. |
| ApiParser.TimingChecksEmpty | src/MortalKombatCompiler.Backend/MortalKombatCompiler.API/Compiler/Parser.cs:89-102 | The timing check finds nothing exactly when positions >= 1 have TimingMs within [50, 2000]. |
| ApiParser.IdentifyOutcome | src/MortalKombatCompiler.Backend/MortalKombatCompiler.API/Compiler/Parser.cs:86-137 | Success holds iff the commands equal one of the four sequences, whatever the timing errors. The errors are the timing errors, then the no-match error when nothing matched. |
| ApiParser.FriendshipIdentified | src/MortalKombatCompiler.Backend/MortalKombatCompiler.API/Compiler/Parser.cs:124-128 | RUN RUN RUN UP succeeds with type FRIENDSHIP and name CYRAX. |
| ApiParser.ParseCode | src/MortalKombatCompiler.Backend/MortalKombatCompiler.API/Compiler/Parser.cs:139-164 | On success, the code has one SEQUENCE line per input and the summed TimingMs as its duration. |
| ApiParser.StartRequired | src/MortalKombatCompiler.Backend/MortalKombatCompiler.API/Compiler/Parser.cs:39-43 | A first token other than SEQUENCE_START gives Success false with the single parsing error. |
| ApiParser.CheckTimings | src/MortalKombatCompiler.Backend/MortalKombatCompiler.API/Compiler/Parser.cs:89-102 | The timing check appends its errors and leaves Success unchanged. |
| ApiParser.Named | src/MortalKombatCompiler.Backend/MortalKombatCompiler.API/Compiler/Parser.cs:114-128 | A matching key sets the move type and name its prefix gives. |
| ApiParser.Parser.Over | src/MortalKombatCompiler.Backend/MortalKombatCompiler.API/Compiler/Parser.cs:26-30 | A parser over a scanned first token has no entries and a fresh result. |
| ApiParser.Parser.Create | src/MortalKombatCompiler.Backend/MortalKombatCompiler.API/Compiler/Parser.cs:26-30 | Creating a parser scans the first token; a scanner exception escapes. |
| ApiParser.Parser.Scan | src/MortalKombatCompiler.Backend/MortalKombatCompiler.API/Compiler/Parser.cs:69 | Scan advances the current token as ScanS does. |
| ApiParser.Parser.ParseTimedInput | src/MortalKombatCompiler.Backend/MortalKombatCompiler.API/Compiler/Parser.cs:63-84 | ParseTimedInput changes the state as TimedInputS does. |
| ApiParser.Parser.ParseSequence | src/MortalKombatCompiler.Backend/MortalKombatCompiler.API/Compiler/Parser.cs:46-61 | ParseSequence changes the state as SequenceS does. |
| ApiParser.Parser.ValidateAndIdentifyMove | src/MortalKombatCompiler.Backend/MortalKombatCompiler.API/Compiler/Parser.cs:86-137 | Validation and identification change the result as IdentifyS does, then generate code. |
| ApiParser.Parser.GenerateIntermediateCode | src/MortalKombatCompiler.Backend/MortalKombatCompiler.API/Compiler/Parser.cs:139-164 | Code is added to the result as GenerateS says, or an exception leaves the result as it was. |
| ApiParser.Parser.Parse | src/MortalKombatCompiler.Backend/MortalKombatCompiler.API/Compiler/Parser.cs:32-44 | Parse leaves the result of ParseS: a caught exception becomes a parsing error. |
| Timing.InputErrorsCases | src/Compiler/SemanticAnalysis/TimingValidator.cs:56-86 | A delay in [50, 2000] adds nothing. Above 2000 it adds a timeout, from 0 to 49 a debounce error, and below 0 both a debounce and a negative-delay error. |
| Timing.GapErrorsEmpty | src/Compiler/SemanticAnalysis/TimingValidator.cs:36-42 | The per-gap checks find nothing exactly when every delay from the second on is within [50, 2000]. |
| Timing.GapErrorsContain | src/Compiler/SemanticAnalysis/TimingValidator.cs:61-83 | Every out-of-range gap at position i >= 1 contributes its error. |
| Timing.GapErrorsSound | src/Compiler/SemanticAnalysis/TimingValidator.cs:56-86 | Every per-gap error names a position >= 1 and that position's delay, and lies on the side of the threshold it names. |
| Timing.GapErrorsIgnoreFirst | src/Compiler/SemanticAnalysis/TimingValidator.cs:36 | Changing the first input never changes the per-gap errors. |
| Timing.ValidateMeaning | src/Compiler/SemanticAnalysis/TimingValidator.cs:23-51 | ValidateSequence returns true iff its error list is empty. That holds iff the sequence is non-empty, every gap is in range and the total is at most 10000. |
| Timing.LongSequenceFails | src/Compiler/SemanticAnalysis/TimingValidator.cs:91-100 | A total above 10000 fails with the duration error, whatever the gaps. |
| Timing.ValidateEdges | src/Compiler/SemanticAnalysis/TimingValidator.cs:27-31 | An empty sequence fails with the single empty-sequence error. A total that overflows Int32 throws after the gap errors. |
| Timing.TimingValidator.constructor | src/Compiler/SemanticAnalysis/TimingValidator.cs:15-18 | A new validator has no errors. |
| Timing.TimingValidator.ValidateSequence | src/Compiler/SemanticAnalysis/TimingValidator.cs:23-51 | The errors and result are those of the Validate specification. |
| Timing.TimingValidator.ValidateInput | src/Compiler/SemanticAnalysis/TimingValidator.cs:56-86 | The input's errors are appended, and the result is true iff nothing was appended. |
| Timing.TimingValidator.ValidateTotalDuration | src/Compiler/SemanticAnalysis/TimingValidator.cs:91-103 | Adds the duration error when the checked sum exceeds 10000, or throws on overflow. |
| Timing.SeqMin | src/Compiler/SemanticAnalysis/TimingValidator.cs:119 | The minimum is at most every element. |
| Timing.SeqMax | src/Compiler/SemanticAnalysis/TimingValidator.cs:120 | The maximum is at least every element. |
| Timing.ExtremesAttained | src/Compiler/SemanticAnalysis/TimingValidator.cs:119-120 | The minimum and maximum are elements of the list. |
| Timing.StatisticsTotals | src/Compiler/SemanticAnalysis/TimingValidator.cs:110-121 | The statistics exist unless the total overflows. The total is the sum of all delays, the count is the length, and one input gives extremes 0. |
| Timing.StatisticsBounds | src/Compiler/SemanticAnalysis/TimingValidator.cs:113-120 | Min <= Max, and both bound every delay from the second on. |
| Timing.StatisticsAttained | src/Compiler/SemanticAnalysis/TimingValidator.cs:119-120 | With two inputs or more, Min and Max are delays of the inputs after the first. |
| Catalog.CatalogWellFormed | src/Compiler/SymbolTable/MoveDefinitions.cs:26-61 | Every sequence is non-empty and uses only command names. Sequences, ids and names are pairwise distinct. All three moves are Cyrax's, typed FATALITY, FATALITY, BRUTALITY. |
| Catalog.FirstWithSequence | src/Compiler/SymbolTable/MoveDefinitions.cs:68 | The match found has the searched sequence. No match exactly when no entry has it. |
| Catalog.FirstWithSequenceIsFirst | src/Compiler/SymbolTable/MoveDefinitions.cs:66-69 | The search returns the first entry in catalog order with the sequence. |
| Catalog.FindBySequenceFindsEachMove | src/Compiler/SymbolTable/MoveDefinitions.cs:66-69 | Each catalog entry is found from its own sequence. |
| Catalog.FindBySequenceNone | src/Compiler/SymbolTable/MoveDefinitions.cs:66-69 | FindBySequence finds nothing exactly when no entry has the sequence. |
| Catalog.AnyStrictPrefix | src/Compiler/SymbolTable/MoveDefinitions.cs:78-81 | True iff some entry is strictly longer than the commands and begins with them. |
| Catalog.IsValidPrefix | src/Compiler/SymbolTable/MoveDefinitions.cs:74-82 | True iff the commands are non-empty and strictly prefix some entry. |
| Catalog.CompleteMoveIsNoPrefix | src/Compiler/SymbolTable/MoveDefinitions.cs:78-81 | No complete move sequence is a valid prefix. |
| Catalog.PrefixMonotone | src/Compiler/SymbolTable/MoveDefinitions.cs:78-81 | A valid prefix of length >= 2 stays valid without its last command. |
| Sequences.IdentifyMeaning | src/Compiler/SemanticAnalysis/SequenceValidator.cs:24-48 | IdentifyMove returns a move exactly when it leaves no error, and null exactly when it leaves one. The move returned is the catalog entry with the commands as its sequence. |
| Sequences.IdentifyIgnoresDelays | src/Compiler/SemanticAnalysis/SequenceValidator.cs:35-38 | Identification depends only on the commands, not the delays. |
| Sequences.IsValidPrefixSequence | src/Compiler/SemanticAnalysis/SequenceValidator.cs:53-60 | An empty sequence is never a valid prefix. |
| Sequences.GetPossibleMoves | src/Compiler/SemanticAnalysis/SequenceValidator.cs:65-78 | The result is a sublist of the catalog in catalog order. For non-empty input it holds exactly the entries the commands strictly prefix. |
| Sequences.PrefixIffPossible | src/Compiler/SemanticAnalysis/SequenceValidator.cs:53-78 | For non-empty input, IsValidPrefixSequence holds iff GetPossibleMoves is non-empty. Empty input gives every move. |
| Sequences.NextExpectedMeaning | src/Compiler/SemanticAnalysis/SequenceValidator.cs:90-97 | The keys are the names of the moves longer than the input. A name's value is its move's command at that position. |
| Sequences.GetNextExpectedInputs | src/Compiler/SemanticAnalysis/SequenceValidator.cs:83-100 | The loop fills the dictionary the NextExpected specification describes. |
| Sequences.NextExpectedInputsMeaning | src/Compiler/SemanticAnalysis/SequenceValidator.cs:83-100 | A move is possible iff its name is a key. Its value is the move's next command, and empty input gives each move's first command. |
| Sequences.PossibleMovesShape | src/Compiler/SemanticAnalysis/SequenceValidator.cs:65-78 | Every possible move is in the catalog and longer than the input, and no two share a name. |
| Sequences.SequenceValidator.constructor | src/Compiler/SemanticAnalysis/SequenceValidator.cs:16-19 | A new validator has no errors. |
| Sequences.SequenceValidator.IdentifyMove | src/Compiler/SemanticAnalysis/SequenceValidator.cs:24-48 | The errors and move are those of the Identify specification. |
| CodeGen.GetCommandDescription | src/Compiler/CodeGeneration/IntermediateCodeGenerator.cs:104-122 | The description is "Comando desconocido" exactly for a name that is not one of the 12 commands. |
| CodeGen.Generate | src/Compiler/CodeGeneration/IntermediateCodeGenerator.cs:18-47 | Generation throws exactly when the delays overflow Int32. Otherwise it copies type, name and id, and the duration is the sum of MillisecondsSincePrevious. There is one instruction per input in order, with position, command, timing and description. The metadata holds character, description and count. |
| CodeGen.BlocksLinesAt | src/Compiler/CodeGeneration/IntermediateCodeGenerator.cs:78-85 | Block i of the text holds input i's command, timing and description. |
| CodeGen.TextLinesBlocks | src/Compiler/CodeGeneration/IntermediateCodeGenerator.cs:63-93 | The text has 29 + 5n lines, with the block of input i at line 19 + 5i. |
| CodeGen.TextLinesTotals | src/Compiler/CodeGeneration/IntermediateCodeGenerator.cs:67 | The header and the ANIMATION block show the same summed duration. |
| CodeGen.TextLinesNames | src/Compiler/CodeGeneration/IntermediateCodeGenerator.cs:71-74 | The text shows MOVE_ID, the quoted MOVE_NAME and the quoted CHARACTER. |
| CodeGen.GenerateTextFormat | src/Compiler/CodeGeneration/IntermediateCodeGenerator.cs:52-99 | The StringBuilder loop produces the TextFormat text, or throws on overflow. |
| MoveCode.TimingOf | src/Compiler/Generated/Parser.cs:267-273 | A `T:` token whose digits fit Int32 gives the value of its digits; digits beyond Int32 throw the overflow exception of `int.Parse`. |
| MoveCode.FirstMatch | src/Compiler/Generated/Parser.cs:97-99 | The key found has the commands as its sequence. No key is found exactly when none matches. |
| MoveCode.FirstMatchAt | src/Compiler/Generated/Parser.cs:97-118 | The first key in order with the commands is the one found. |
| MoveCode.KeyParts | src/Compiler/Generated/Parser.cs:105-114 | FATALITY_SELF_DESTRUCT gives type FATALITY and name SELF DESTRUCT. In general a key's prefix gives the type and the rest, with underscores made spaces, the name. |
| MoveCode.CodeLinesEntries | src/Compiler/Generated/Parser.cs:141-144 | The emitted code has n + 12 lines, and line 8 + i is the SEQUENCE entry of input i. |
| MoveCode.CodeLinesDuration | src/Compiler/Generated/Parser.cs:148 | The DURATION line shows the total. |
| MoveCode.EmitEntries | src/Compiler/Generated/Parser.cs:129-144 | The StringBuilder loop emits the header and one entry line per input. |
| Facade.CompileSucceedsIff | src/Compiler/CompilerFacade.cs:73-117 | CompileFromSequence succeeds iff the sequence is non-empty, every gap is within [50, 2000], the total fits Int32 and is at most 10000, and the commands equal a catalog sequence. |
| Facade.CompileSuccessResult | src/Compiler/CompilerFacade.cs:97-109 | On success there are no errors. Type, name and id are the matched move's. The validated sequence is the input, the code is the text form, and the duration is the summed delays. |
| Facade.TimingFailureResult | src/Compiler/CompilerFacade.cs:80-85 | A timing failure gives exactly the timing errors, at least one, and no later stage runs. |
| Facade.NoMatchResult | src/Compiler/CompilerFacade.cs:88-94 | Timings that pass with no matching move give exactly the sequence validator's error. |
| Facade.ZeroGapFails | src/Compiler/SemanticAnalysis/TimingValidator.cs:70 | A second input with MillisecondsSincePrevious 0 always fails compilation. |
| Facade.CompileSourceStages | src/Compiler/CompilerFacade.cs:33-68 | A reported syntax error gives only the syntax error message. Otherwise the parsed entries are compiled. A success needs exactly one parsed input. |
| Facade.CompilerFacade.constructor | src/Compiler/CompilerFacade.cs:23-28 | A new facade has fresh validators with no errors. |
| Facade.CompilerFacade.CompileFromSequence | src/Compiler/CompilerFacade.cs:73-117 | The result is that of CompileSequence. The timing validator holds its errors, and the sequence validator runs only when the timings pass. |
| Facade.CompilerFacade.CompileFromSource | src/Compiler/CompilerFacade.cs:33-68 | The result is that of CompileSource: open the scanner, parse, apply the syntax gate, then compile the entries. |
| Facade.CompilerFacade.IsValidPrefix | src/Compiler/CompilerFacade.cs:122-125 | True iff the input is non-empty and its commands strictly prefix some move. |
| Facade.CompilerFacade.GetPossibleMoves | src/Compiler/CompilerFacade.cs:130-133 | Empty input gives every move. Otherwise the result is the catalog-ordered sublist of the moves the commands strictly prefix. |
| Converter.SourceText | src/InputCapture/InputToSourceConverter.cs:18-45 | The text is empty exactly when the sequence is. |
| Converter.ConvertToSourceCode | src/InputCapture/InputToSourceConverter.cs:18-45 | The StringBuilder loop produces SourceText: SEQUENCE_START, one line per input, SEQUENCE_END. |
| Converter.CommentedText | src/InputCapture/InputToSourceConverter.cs:50-80 | The commented text is empty exactly when the sequence is. |
| Converter.ConvertToSourceCodeWithComments | src/InputCapture/InputToSourceConverter.cs:50-80 | The loop produces CommentedText: the comment header, then the numbered lines between the delimiters. |
| Converter.CommentedShape | src/InputCapture/InputToSourceConverter.cs:57-77 | The commented text is the comment header followed by the plain lines, each with its numbering comment. |
| Converter.CommentedStartsWithSlash | src/InputCapture/InputToSourceConverter.cs:57 | The commented text begins with `/`. |
| RoundTrip.SourceTextAscii | src/InputCapture/InputToSourceConverter.cs:18-45 | For known commands, the converter's text is ASCII, so its UTF-8 bytes are its characters. |
| RoundTrip.RoundTrip | src/InputCapture/InputToSourceConverter.cs:18-45 | Converting known commands to text and parsing it with the generated parser gives no syntax errors. The entries have the same commands in order, each with TimingMs equal to its positive delay, or 0. The only failure is an Int32 overflow of a delay. |
| RoundTrip.ConvertedSourceCompiles | src/Compiler/CompilerFacade.cs:33-68 | Compiling the converter's text compiles the re-parsed entries, and it fails for two inputs or more, because MillisecondsSincePrevious stays 0. |
| RoundTrip.SlashOpening | src/MortalKombatCompiler.Backend/MortalKombatCompiler.API/Compiler/Scanner.cs:289-303 | A text starting with `/` gives a noSym first token with errors still reportable. |
| RoundTrip.MissingStartReported | src/Compiler/Generated/Parser.cs:192 | A first token other than SEQUENCE_START is reported as a syntax error. |
| RoundTrip.CommentedNotCompiled | src/InputCapture/InputToSourceConverter.cs:50-80 | The commented text never parses without syntax errors and never compiles. |
| CaptureBuffer.Statistics | src/InputCapture/InputBuffer/InputBuffer.cs:150-162 | An empty buffer gives the default record. Otherwise an overflowing sum throws, a single input throws "Sequence contains no elements", and the record has count, summed MillisecondsSincePrevious, start time and flag. |
| CaptureBuffer.SingleInputStatistics | src/InputCapture/InputBuffer/InputBuffer.cs:159 | A single input always throws the empty-average exception. |
| CaptureBuffer.InputBuffer.constructor | src/InputCapture/InputBuffer/InputBuffer.cs:27-31 | A new buffer is empty and inactive. |
| CaptureBuffer.InputBuffer.InputCount | src/InputCapture/InputBuffer/InputBuffer.cs:25 | InputCount is the number of inputs held. |
| CaptureBuffer.InputBuffer.AddInput | src/InputCapture/InputBuffer/InputBuffer.cs:36-55 | null changes nothing. Otherwise the input is appended and the buffer is active. The first input of a sequence sets the start time to its timestamp. The buffer is active exactly while it holds inputs. |
| CaptureBuffer.InputBuffer.CompleteSequence | src/InputCapture/InputBuffer/InputBuffer.cs:60-71 | Nothing for an empty buffer. Otherwise the event carries the old contents, and the buffer is left empty and inactive. |
| CaptureBuffer.InputBuffer.CancelSequence | src/InputCapture/InputBuffer/InputBuffer.cs:76-81 | The buffer is left empty and inactive. |
| CaptureBuffer.InputBuffer.Clear | src/InputCapture/InputBuffer/InputBuffer.cs:86-90 | The buffer is left empty and inactive. |
| CaptureBuffer.InputBuffer.GetCurrentSequence | src/InputCapture/InputBuffer/InputBuffer.cs:95-98 | The copy equals the contents. |
| CaptureBuffer.InputBuffer.OnTimeoutElapsed | src/InputCapture/InputBuffer/InputBuffer.cs:136-145 | Nothing for an empty buffer. Otherwise the event carries the old contents, then the buffer is cleared. |
| CaptureBuffer.InputBuffer.GetStatistics | src/InputCapture/InputBuffer/InputBuffer.cs:150-162 | The record is that of Statistics. In a valid buffer it starts at the first input's timestamp and is active. |
| Models.Commands | src/Common/Models/TimedInput.cs:15-26 | One command per input, in order. |
| Models.Delays | src/Common/Models/TimedInput.cs:15-26 | One MillisecondsSincePrevious per input, in order. |
| Models.Timings | src/Common/Models/TimedInput.cs:15-26 | One TimingMs per input, in order. |
| Client.IsValidPrefix | src/WebUI/MortalKombatUI/ClientApp/src/CyraxCompiler.jsx:336 | True iff the commands are strictly shorter than the target and equal it element-wise. |
| Client.PrefixesDiffer | src/WebUI/MortalKombatUI/ClientApp/src/CyraxCompiler.jsx:41-87 | Unlike the catalog, the client counts the empty list as a prefix and adds FRIENDSHIP. The `error` entry is never a prefix target. |
| Client.FirstPrefixedFrom | src/WebUI/MortalKombatUI/ClientApp/src/CyraxCompiler.jsx:237-245 | The index found is the first entry the commands prefix, or the end of the list. |
| Client.IsValidPrefixForAnyMove | src/WebUI/MortalKombatUI/ClientApp/src/CyraxCompiler.jsx:253-260 | True iff some entry is prefixed by the commands. |
| Client.FeedbackMeaning | src/WebUI/MortalKombatUI/ClientApp/src/CyraxCompiler.jsx:233-251 | Progress is notified iff there are >= 3 commands and some entry is prefixed, and it names the first such entry. The warning comes iff there are >= 4 commands and none is prefixed. |
| Client.CheckSequencePrefix | src/WebUI/MortalKombatUI/ClientApp/src/CyraxCompiler.jsx:233-251 | The loop's decision is the PrefixFeedback specification. |
| Client.Split | src/WebUI/MortalKombatUI/ClientApp/src/CyraxCompiler.jsx:181 | Splitting gives at least one piece. |
| Client.SplitJoin | src/WebUI/MortalKombatUI/ClientApp/src/CyraxCompiler.jsx:176-181 | Joining lines without line feeds by `\n` and splitting again gives the lines back. |
| Client.GeneratedLines | src/WebUI/MortalKombatUI/ClientApp/src/CyraxCompiler.jsx:166-186 | The source splits into SEQUENCE_START, one line per input and SEQUENCE_END: len + 2 lines. |
| Client.PushLog | src/WebUI/MortalKombatUI/ClientApp/src/CyraxCompiler.jsx:337 | The new entry comes first, followed by the newest older ones, at most 15 in all. |
| Client.ClientState.constructor | src/WebUI/MortalKombatUI/ClientApp/src/CyraxCompiler.jsx:12-29 | The initial state is empty, idle and not compiling. |
| Client.ClientState.AddLog | src/WebUI/MortalKombatUI/ClientApp/src/CyraxCompiler.jsx:337 | The log becomes PushLog of the entry, and nothing else changes. |
| Client.ClientState.AddInput | src/WebUI/MortalKombatUI/ClientApp/src/CyraxCompiler.jsx:140-164 | Ignored on success or while a compilation is pending. Otherwise it appends the command with delay 0 first and now minus the previous timestamp after, logs it, regenerates the source and adds the prefix feedback. |
| Client.ClientState.ResetSequence | src/WebUI/MortalKombatUI/ClientApp/src/CyraxCompiler.jsx:262-269 | Inputs, start time and source are cleared and the status is idle. The logs are kept. |

## Left out

- Stream I/O: the stream is an in-memory byte sequence, and every stream `Read` returns as many bytes as asked, up to the end. Seek on a non-seekable stream is the `NotSupported` exception.
- `Buffer` copy constructor, finaliser and the `Scanner(string fileName)` constructor are not modelled: they are file handling. Strings are ASCII bytes; other UTF-8 encoding is not modelled.
- `oldEols` is set to 0 and never increased, because the scanner has no comments. The model leaves it out.
- `SetScannerBehindT` is not modelled as a branch: `Lexer.RunNotTiming` shows the state that would reach it is never entered with a pending kind.
- `Scanning.Scanner.Peek`: its skip loop runs once, since no kind exceeds `maxT`.
- `GenParser`: `ExpectWeak`, `WeakSeparator` and `SemErr` are not called by any production and are left out. The error messages `Errors` writes to the console are left out; the count and the (line, col, n) records are kept.
- The facade's `GetTimingStatistics` is a one-line delegation to `TimingValidator.GetTimingStatistics`, which is modelled; the delegation itself is not.
- `AverageTiming` (a double) in `TimingValidator` and `InputBuffer` statistics is left out; the exception `Average` raises on an empty list is kept.
- `Dictionary` enumeration order is taken as insertion order, which is what .NET does for dictionaries that are never removed from.
- The `System.Threading.Timer` of `InputBuffer` is not modelled: the timeout is the explicit call `OnTimeoutElapsed`, and events are the values the methods return. `OnInputAdded` would carry only the input just passed in, so `AddInput` returns nothing.
- `DateTime.Now` and `Date.now` are parameters; the `CompiledAt` stamp is an opaque string.
- `IntermediateCode.ToJson` is a call into a JSON library and is left out.
- `Client`: notification wording, expiry and sound, React rendering, `fetch`, gamepad polling and `handleCompileAndExecute` are left out. Notifications are kept as the feedback values of `checkSequencePrefix`.
- `RoundTrip.RoundTrip` is stated for sequences of the 12 known commands, with any delays (a delay of 0 or less is written as nothing and reads back as 0); other command text may contain characters the scanner splits on.
- `Client.ClientState.AddInput`: successive calls are assumed to see the previous call's state. The component reads `inputSequence`, `compilationStatus` and `pendingCompilation` from the render closure and writes with `setInputSequence(newSequence)`, so two calls within one render would lose the first input; the model does not show that.
- `NewLine` is `"\r\n"`, what `AppendLine` writes on Windows, where the input capture runs. On a host whose `Environment.NewLine` is `"\n"`, the texts of `CodeGen`, `MoveCode`, `ApiParser` and `Converter` would end their lines with `\n` instead; the model does not cover that.
- `ApiParser.Parser.Parse`: after an exception the token and entries are whatever the failed step left; the model states them only when the parse of the sequence succeeds.
- HTTP controllers, dependency injection, SignalR, the async service wrappers and XInput polling are outside the compiler.
