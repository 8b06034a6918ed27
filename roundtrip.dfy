/** The converter's text read back by the compiler: the scanner and the
    generated parser turn `ConvertToSourceCode(sequence)` into the same
    commands and delays, without a syntax error; the commented variant
    starts with a character no token starts with, so it is rejected. */
module RoundTrip {
  import opened Base
  import opened Models
  import opened ScanBuffer
  import opened Lexer
  import opened GenParser
  import opened CodeGen
  import opened Catalog
  import opened Converter
  import opened MoveCode
  import Facade

  // ---------------------------------------------------------------------------
  // The text as bytes
  // ---------------------------------------------------------------------------

  predicate IsAscii(t: string) {
    forall i :: 0 <= i < |t| ==> t[i] as int < 128
  }

  /** The UTF-8 encoding of an ASCII text: one byte per character. */
  function AsciiBytes(t: string): (b: seq<byte>)
    requires IsAscii(t)
    ensures |b| == |t| && forall i :: 0 <= i < |t| ==> b[i] == t[i] as int
  {
    seq(|t|, i requires 0 <= i < |t| => t[i] as int)
  }

  /** Every input names one of the twelve commands. */
  predicate Known(s: seq<TimedInput>) {
    forall i :: 0 <= i < |s| ==> IsCommand(s[i].command)
  }

  lemma CommandAscii(c: string)
    requires IsCommand(c)
    ensures IsAscii(c)
  {
    var i :| 0 <= i < |CommandNames| && CommandNames[i] == c;
  }

  lemma NatToStringAscii(n: nat)
    ensures IsAscii(NatToString(n))
  {
  }

  lemma {:induction false} LinesAscii(ls: seq<string>)
    requires forall i :: 0 <= i < |ls| ==> IsAscii(ls[i])
    ensures IsAscii(Lines(ls))
    decreases |ls|
  {
    if |ls| > 0 {
      LinesAscii(ls[..|ls| - 1]);
    }
  }

  lemma SourceLineAscii(x: TimedInput)
    requires IsCommand(x.command)
    ensures IsAscii(SourceLine(x))
  {
    CommandAscii(x.command);
    if x.millisecondsSincePrevious > 0 {
      NatToStringAscii(x.millisecondsSincePrevious as int);
    }
  }

  lemma {:induction false} SourceTextAscii(s: seq<TimedInput>)
    requires Known(s)
    ensures IsAscii(SourceText(s))
  {
    if |s| > 0 {
      var ls := [StartLine] + SourceLines(s) + [EndLine];
      forall i | 0 <= i < |ls|
        ensures IsAscii(ls[i])
      {
        if i == 0 {
          HeadOfJoin([StartLine], SourceLines(s), [EndLine], 0);
        } else if i <= |s| {
          MidOfJoin([StartLine], SourceLines(s), [EndLine], i - 1);
          SourceLineAscii(s[i - 1]);
        } else {
          TailOfJoin([StartLine], SourceLines(s), [EndLine], 0);
        }
      }
      LinesAscii(ls);
    }
  }

  /** The bytes the scanner reads for the converter's text of known commands. */
  function SourceBytes(s: seq<TimedInput>): (b: seq<byte>)
    requires Known(s)
    ensures |b| == |SourceText(s)|
  {
    SourceTextAscii(s);
    AsciiBytes(SourceText(s))
  }

  /** The characters of `w` are the input's bytes from `at` on. */
  ghost predicate Reads(src: Source, at: int, w: string) {
    0 <= at && at + |w| <= |src.data| && forall j :: 0 <= j < |w| ==> src.data[at + j] == w[j] as int
  }

  lemma ReadsSplit(src: Source, at: int, a: string, b: string)
    requires Reads(src, at, a + b)
    ensures Reads(src, at, a) && Reads(src, at + |a|, b)
  {
    assert forall j :: 0 <= j < |a| ==> (a + b)[j] == a[j];
    assert forall j :: 0 <= j < |b| ==> (a + b)[|a| + j] == b[j];
  }

  lemma ReadsJoin(src: Source, at: int, a: string, b: string)
    requires Reads(src, at, a) && Reads(src, at + |a|, b)
    ensures Reads(src, at, a + b)
  {
    forall j | 0 <= j < |a + b|
      ensures src.data[at + j] == (a + b)[j] as int
    {
      if j >= |a| {
        assert (a + b)[j] == b[j - |a|];
      }
    }
  }

  /** The input holds only whitespace from `from` up to `to`. */
  ghost predicate Blank(src: Source, from: int, to: int) {
    0 <= from <= to <= |src.data| && forall j :: from <= j < to ==> IsWs(src.data[j])
  }

  lemma ReadsBlank(src: Source, at: int, w: string)
    requires Reads(src, at, w) && forall i :: 0 <= i < |w| ==> IsWsChar(w[i])
    ensures Blank(src, at, at + |w|)
  {
    forall j | at <= j < at + |w|
      ensures IsWs(src.data[j])
    {
      assert IsWsChar(w[j - at]);
    }
  }

  /** `AppendLine` puts the first line in front. */
  lemma LinesCons(ls: seq<string>)
    requires |ls| > 0
    ensures Lines(ls) == ls[0] + NewLine + Lines(ls[1..])
  {
    LinesAppend([ls[0]], ls[1..]);
    assert [ls[0]] + ls[1..] == ls;
    assert Lines([ls[0]]) == ls[0] + NewLine;
  }

  // ---------------------------------------------------------------------------
  // The scanner on such text
  // ---------------------------------------------------------------------------

  /** Whitespace up to `q` is skipped, and the character there is read as it is. */
  lemma {:induction false} SkipWsTo(src: Source, c: Cursor, q: int)
    requires src.canSeek && Fits(src, c) && Blank(src, c.pos, q) && q < |src.data|
    requires !IsWs(src.data[q])
    ensures SkipWs(src, c).Ok?
    ensures SkipWs(src, c).value.pos == q && SkipWs(src, c).value.ch == src.data[q]
    decreases q - c.pos
  {
    if c.pos < q {
      assert IsWs(c.ch);
      var c' := NextCh(src, c).value;
      SkipWsTo(src, c', q);
    }
  }

  /** Whitespace up to the end is skipped to EOF. */
  lemma {:induction false} SkipWsToEnd(src: Source, c: Cursor)
    requires src.canSeek && Fits(src, c) && Blank(src, c.pos, |src.data|)
    ensures SkipWs(src, c).Ok? && SkipWs(src, c).value.ch == EOF
    decreases |src.data| - c.pos
  {
    if c.ch != EOF {
      assert IsWs(c.ch);
      var c' := NextCh(src, c).value;
      SkipWsToEnd(src, c');
    }
  }

  /** A literal starts with a letter. */
  lemma LiteralStart(kind: int)
    requires IsLiteralKind(kind)
    ensures |Literal(kind)| >= 2 && 'A' <= Literal(kind)[0] <= 'Z'
  {
  }

  /** After whitespace, a literal is read as one token of its kind. */
  lemma WordAfterWs(src: Source, c: Cursor, q: int, kind: int)
    requires src.canSeek && Fits(src, c) && Blank(src, c.pos, q) && IsLiteralKind(kind)
    requires Reads(src, q, Literal(kind))
    ensures NextToken(src, c).Ok?
    ensures NextToken(src, c).value.0.kind == kind && NextToken(src, c).value.0.val == Literal(kind)
    ensures NextToken(src, c).value.1.pos == q + |Literal(kind)|
  {
    var w := Literal(kind);
    LiteralStart(kind);
    SkipWsTo(src, c, q);
    var c0 := SkipWs(src, c).value;
    assert Ahead(src, c0, w, 0);
    KeywordToken(src, c0, kind);
  }

  /** After whitespace, `T:` and digits followed by a non-digit are one
      TIMING token. */
  lemma TimingAfterWs(src: Source, c: Cursor, q: int, digits: string)
    requires src.canSeek && Fits(src, c) && Blank(src, c.pos, q) && |digits| > 0 && AllDigits(digits)
    requires Reads(src, q, "T:" + digits) && q + 2 + |digits| < |src.data|
    requires !IsDigitCode(src.data[q + 2 + |digits|])
    ensures NextToken(src, c).Ok?
    ensures NextToken(src, c).value.0.kind == 13 && NextToken(src, c).value.0.val == "T:" + digits
    ensures NextToken(src, c).value.1.pos == q + 2 + |digits|
  {
    var w := "T:" + digits;
    assert w[0] == 'T';
    SkipWsTo(src, c, q);
    var c0 := SkipWs(src, c).value;
    assert Ahead(src, c0, w, 0);
    TimingToken(src, c0, digits);
    NextTokenText(src, c0);
  }

  /** Whitespace up to the end leaves only EOF. */
  lemma EofAfterWs(src: Source, c: Cursor)
    requires src.canSeek && Fits(src, c) && Blank(src, c.pos, |src.data|)
    ensures NextToken(src, c).Ok?
    ensures NextToken(src, c).value.0.kind == eofSym && NextToken(src, c).value.1.ch == EOF
  {
    SkipWsToEnd(src, c);
    EofFixpoint(src, SkipWs(src, c).value);
  }

  // ---------------------------------------------------------------------------
  // The parser on such text
  // ---------------------------------------------------------------------------

  /** The token kind of a command name. */
  function CommandKind(c: string): (kind: int)
    requires IsCommand(c)
    ensures 1 <= kind <= 12 && Literal(kind) == c
  {
    if c == "UP" then 1
    else if c == "DOWN" then 2
    else if c == "LEFT" then 3
    else if c == "RIGHT" then 4
    else if c == "FORWARD" then 5
    else if c == "BACK" then 6
    else if c == "LP" then 7
    else if c == "HP" then 8
    else if c == "LK" then 9
    else if c == "HK" then 10
    else if c == "BL" then 11
    else 12
  }

  /** The entry the parser builds from the line of `x`: the command, and the
      delay when the line carries one. */
  function Reparsed(x: TimedInput, now: int): TimedInput {
    ParsedInput(x.command, if x.millisecondsSincePrevious > 0 then x.millisecondsSincePrevious else 0, now)
  }

  function ReparsedAll(s: seq<TimedInput>, now: int): (r: seq<TimedInput>)
    ensures |r| == |s| && forall i :: 0 <= i < |s| ==> r[i] == Reparsed(s[i], now)
  {
    if |s| == 0 then [] else [Reparsed(s[0], now)] + ReparsedAll(s[1..], now)
  }

  /** The text after SEQUENCE_START's line: one line per input, then
      SEQUENCE_END's, as `AppendLine` writes them (`RestIsLines`). */
  function Rest(xs: seq<TimedInput>): string {
    if |xs| == 0 then EndLine + NewLine else SourceLine(xs[0]) + NewLine + Rest(xs[1..])
  }

  /** One input line: with the command as lookahead, `TimedInput` reads the
      optional TIMING token and leaves the first word of the next line as
      lookahead, appending the entry of that line. */
  lemma {:induction false} InputStep(src: Source, p: PState, now: int, x: TimedInput, at: int, next: int)
    requires src.canSeek && Fits(src, p.cur) && IsLiteralKind(next)
    requires 1 <= p.la.kind <= 12 && Literal(p.la.kind) == x.command
    requires p.cur.pos == at + |x.command|
    requires Reads(src, at, SourceLine(x) + NewLine + Literal(next))
    ensures TimedInputS(src, p, now).Ok?
    ensures var q := TimedInputS(src, p, now).value;
      && q.la.kind == next && q.cur.pos == at + |SourceLine(x)| + 2 + |Literal(next)|
      && q.inputs == p.inputs + [Reparsed(x, now)] && q.reported == p.reported
  {
    var line := SourceLine(x);
    ReadsSplit(src, at, line + NewLine, Literal(next));
    ReadsSplit(src, at, line, NewLine);
    ReadsBlank(src, at + |line|, NewLine);
    if x.millisecondsSincePrevious > 0 {
      InputStepTimed(src, p, now, x, at, next);
    } else {
      InputStepPlain(src, p, now, x, at, next);
    }
  }

  /** A line with a delay: the command, a blank, the TIMING token. */
  lemma {:induction false} InputStepTimed(src: Source, p: PState, now: int, x: TimedInput, at: int, next: int)
    requires src.canSeek && Fits(src, p.cur) && IsLiteralKind(next)
    requires 1 <= p.la.kind <= 12 && Literal(p.la.kind) == x.command
    requires p.cur.pos == at + |x.command| && x.millisecondsSincePrevious > 0
    requires Reads(src, at, SourceLine(x)) && Reads(src, at + |SourceLine(x)|, NewLine)
    requires Blank(src, at + |SourceLine(x)|, at + |SourceLine(x)| + 2)
    requires Reads(src, at + |SourceLine(x)| + 2, Literal(next))
    ensures TimedInputS(src, p, now).Ok?
    ensures var q := TimedInputS(src, p, now).value;
      && q.la.kind == next && q.cur.pos == at + |SourceLine(x)| + 2 + |Literal(next)|
      && q.inputs == p.inputs + [Reparsed(x, now)] && q.reported == p.reported
  {
    var q1 := TimingAfterCommand(src, p, x, at);
    WordAfterWs(src, q1.cur, at + |SourceLine(x)| + 2, next);
    var q2 := GetS(src, q1).value;
    TimingDigits(q1.la.val, x.millisecondsSincePrevious);
    TimedInputTimed(src, p, now, q1, q2, x.millisecondsSincePrevious);
    assert ParsedInput(Literal(p.la.kind), x.millisecondsSincePrevious, now) == Reparsed(x, now);
  }

  /** The TIMING word of a delay reads back as that delay. */
  lemma TimingDigits(val: string, ms: int32)
    requires 0 < ms && val == "T:" + NatToString(ms as int)
    ensures TimingOf(val) == Ok(ms)
  {
    NatToStringRoundTrip(ms as int);
    assert val[2..] == NatToString(ms as int);
    assert val[..2] == "T:";
  }

  /** After the command of a line with a delay, `Get` reads its TIMING
      word, up to the end of the line. */
  lemma {:induction false} TimingAfterCommand(src: Source, p: PState, x: TimedInput, at: int)
    returns (q1: PState)
    requires src.canSeek && Fits(src, p.cur)
    requires p.cur.pos == at + |x.command| && x.millisecondsSincePrevious > 0
    requires Reads(src, at, SourceLine(x)) && Reads(src, at + |SourceLine(x)|, NewLine)
    ensures GetS(src, p) == Ok(q1) && Fits(src, q1.cur)
    ensures q1.la.kind == 13 && q1.la.val == "T:" + NatToString(x.millisecondsSincePrevious as int)
    ensures q1.cur.pos == at + |SourceLine(x)| && q1.inputs == p.inputs && q1.reported == p.reported
  {
    var cmd := x.command;
    var digits := NatToString(x.millisecondsSincePrevious as int);
    var eol := at + |SourceLine(x)|;
    TimedLineReads(src, at, x);
    assert at + |cmd| + 1 + 2 + |digits| == eol;
    assert src.data[eol] == CR by {
      assert NewLine[0] == CR as char;
    }
    TimingAfterWs(src, p.cur, at + |cmd| + 1, digits);
    q1 := GetS(src, p).value;
  }

  /** The bytes of a line with a delay: the command, one blank, and the
      TIMING word of the delay. */
  lemma TimedLineReads(src: Source, at: int, x: TimedInput)
    requires x.millisecondsSincePrevious > 0 && Reads(src, at, SourceLine(x))
    ensures var cmd, digits := x.command, NatToString(x.millisecondsSincePrevious as int);
      && |SourceLine(x)| == |cmd| + 3 + |digits|
      && Reads(src, at, cmd) && Blank(src, at + |cmd|, at + |cmd| + 1)
      && Reads(src, at + |cmd| + 1, "T:" + digits)
  {
    var cmd, digits := x.command, NatToString(x.millisecondsSincePrevious as int);
    assert SourceLine(x) == cmd + (" " + ("T:" + digits));
    ReadsThree(src, at, cmd, " ", "T:" + digits);
    ReadsBlank(src, at + |cmd|, " ");
  }

  lemma ReadsThree(src: Source, at: int, a: string, b: string, c: string)
    requires Reads(src, at, a + (b + c))
    ensures Reads(src, at, a) && Reads(src, at + |a|, b) && Reads(src, at + |a| + |b|, c)
  {
    ReadsSplit(src, at, a, b + c);
    ReadsSplit(src, at + |a|, b, c);
  }

  /** A line without a delay: the command alone. */
  lemma {:induction false} InputStepPlain(src: Source, p: PState, now: int, x: TimedInput, at: int, next: int)
    requires src.canSeek && Fits(src, p.cur) && IsLiteralKind(next)
    requires 1 <= p.la.kind <= 12 && Literal(p.la.kind) == x.command
    requires p.cur.pos == at + |x.command| && x.millisecondsSincePrevious <= 0
    requires Blank(src, at + |SourceLine(x)|, at + |SourceLine(x)| + 2)
    requires Reads(src, at + |SourceLine(x)| + 2, Literal(next))
    ensures TimedInputS(src, p, now).Ok?
    ensures var q := TimedInputS(src, p, now).value;
      && q.la.kind == next && q.cur.pos == at + |SourceLine(x)| + 2 + |Literal(next)|
      && q.inputs == p.inputs + [Reparsed(x, now)] && q.reported == p.reported
  {
    WordAfterWs(src, p.cur, at + |SourceLine(x)| + 2, next);
    TimedInputPlain(src, p, now);
  }

  /** `TimedInput` on a command followed by a TIMING token. */
  lemma TimedInputTimed(src: Source, p: PState, now: int, q1: PState, q2: PState, ms: int32)
    requires Fits(src, p.cur) && 1 <= p.la.kind <= 12 && GetS(src, p) == Ok(q1) && Fits(src, q1.cur)
    requires q1.la.kind == 13 && GetS(src, q1) == Ok(q2) && TimingOf(q1.la.val) == Ok(ms)
    ensures TimedInputS(src, p, now) == Ok(q2.(inputs := q2.inputs + [ParsedInput(Literal(p.la.kind), ms, now)]))
  {
  }

  /** `TimedInput` on a command followed by anything else. */
  lemma TimedInputPlain(src: Source, p: PState, now: int)
    requires Fits(src, p.cur) && 1 <= p.la.kind <= 12 && GetS(src, p).Ok? && GetS(src, p).value.la.kind != 13
    ensures var q1 := GetS(src, p).value;
      TimedInputS(src, p, now) == Ok(q1.(inputs := q1.inputs + [ParsedInput(Literal(p.la.kind), 0, now)]))
  {
  }

  /** The kind of the first word of `Rest(xs)`. */
  function FirstKind(xs: seq<TimedInput>): (kind: int)
    ensures |xs| > 0 && IsCommand(xs[0].command) ==> Literal(kind) == xs[0].command
  {
    if |xs| == 0 then 15
    else if IsCommand(xs[0].command) then CommandKind(xs[0].command)
    else 0
  }

  /** An input's line starts with its command's word. */
  lemma LineStartsWithCommand(x: TimedInput)
    requires IsCommand(x.command)
    ensures var w := Literal(CommandKind(x.command));
      |w| <= |SourceLine(x)| && SourceLine(x)[..|w|] == w
  {
  }

  /** The closing line and its lookahead word. */
  lemma EndLineText()
    ensures Lines([EndLine]) == EndLine + NewLine && |Lines([EndLine])| == 14
    ensures Literal(15) == EndLine && |EndLine| == 12
  {
    LinesCons([EndLine]);
  }

  /** The text after a line starts with the word of its first line. */
  lemma RestStarts(xs: seq<TimedInput>)
    requires Known(xs)
    ensures var w := Literal(FirstKind(xs));
      IsLiteralKind(FirstKind(xs)) && |w| <= |Rest(xs)| && Rest(xs)[..|w|] == w
  {
    if |xs| == 0 {
      EndLineText();
      PrefixOfAppend(EndLine, NewLine, 12);
    } else {
      RestStartsLine(xs);
    }
  }

  lemma RestStartsLine(xs: seq<TimedInput>)
    requires |xs| > 0 && IsCommand(xs[0].command)
    ensures var w := xs[0].command;
      FirstKind(xs) == CommandKind(w) && |w| <= |Rest(xs)| && Rest(xs)[..|w|] == w
  {
    var line := SourceLine(xs[0]);
    LineStartsWithCommand(xs[0]);
    assert Rest(xs) == line + (NewLine + Rest(xs[1..]));
    PrefixOfAppend(line, NewLine + Rest(xs[1..]), |xs[0].command|);
  }

  lemma PrefixOfAppend(a: string, b: string, n: int)
    requires 0 <= n <= |a|
    ensures (a + b)[..n] == a[..n]
  {
  }

  lemma KnownTail(xs: seq<TimedInput>)
    requires Known(xs) && |xs| > 0
    ensures Known(xs[1..]) && IsCommand(xs[0].command)
  {
    assert forall i :: 0 <= i < |xs| - 1 ==> xs[1..][i] == xs[i + 1];
  }

  /** The bytes at `at` are the line of the first input, its line break and
      the first word of the next line; the text after that line follows. */
  lemma ReadsLine(src: Source, xs: seq<TimedInput>, at: int)
    requires Known(xs) && |xs| > 0 && Reads(src, at, Rest(xs))
    ensures var line, rest := SourceLine(xs[0]), Rest(xs[1..]);
      && Reads(src, at, line + NewLine + Literal(FirstKind(xs[1..])))
      && Reads(src, at + |line| + 2, rest)
      && |Rest(xs)| == |line| + 2 + |rest|
  {
    var line, rest := SourceLine(xs[0]), Rest(xs[1..]);
    KnownTail(xs);
    RestStarts(xs[1..]);
    ReadsHead(src, at, line + NewLine, rest, Literal(FirstKind(xs[1..])));
  }

  /** Bytes reading `a + r`, where `r` starts with `w`, read `a + w`, and `r`
      after `a`. */
  lemma ReadsHead(src: Source, at: int, a: string, r: string, w: string)
    requires Reads(src, at, a + r) && |w| <= |r| && r[..|w|] == w
    ensures Reads(src, at, a + w) && Reads(src, at + |a|, r)
  {
    ReadsSplit(src, at, a, r);
    ReadsPrefix(src, at + |a|, r, |w|);
    ReadsJoin(src, at, a, w);
  }

  lemma Associative<T>(a: seq<T>, b: seq<T>, c: seq<T>)
    ensures a + b + c == a + (b + c)
  {
  }

  /** The parser stands on the command of the first of `xs`, whose line
      starts at `at`, with the rest of the text ahead. */
  ghost predicate OnLine(src: Source, xs: seq<TimedInput>, p: PState, at: int) {
    && src.canSeek && Fits(src, p.cur) && Known(xs) && |xs| > 0
    && 1 <= p.la.kind <= 12 && Literal(p.la.kind) == xs[0].command
    && p.cur.pos == at + |xs[0].command|
    && Reads(src, at, Rest(xs))
  }

  /** The first round of the loop of `TimedSequence` on the line of the
      first input: the state `q1` it leaves, with the next line's first
      word as lookahead and the text after that line still ahead. */
  lemma {:induction false} LoopHead(src: Source, xs: seq<TimedInput>, p: PState, at: int, now: int)
    returns (q1: PState)
    requires OnLine(src, xs, p, at)
    ensures Fits(src, q1.cur) && TimedLoopS(src, p, now) == TimedLoopS(src, q1, now)
    ensures var line, rest := SourceLine(xs[0]), Rest(xs[1..]);
      && q1.la.kind == FirstKind(xs[1..]) && q1.cur.pos == at + |line| + 2 + |Literal(FirstKind(xs[1..]))|
      && q1.inputs == p.inputs + [Reparsed(xs[0], now)] && q1.reported == p.reported
      && Reads(src, at + |line| + 2, rest) && |Rest(xs)| == |line| + 2 + |rest|
  {
    ReadsLine(src, xs, at);
    KnownTail(xs);
    RestStarts(xs[1..]);
    InputStep(src, p, now, xs[0], at, FirstKind(xs[1..]));
    q1 := TimedInputS(src, p, now).value;
  }

  /** After a line other than the last, the parser stands on the next one,
      `len + 2` bytes further on. */
  lemma {:induction false} NextLine(src: Source, ys: seq<TimedInput>, at: int, len: int, q1: PState)
    returns (at1: int)
    requires src.canSeek && Known(ys) && |ys| > 0 && Fits(src, q1.cur)
    requires q1.la.kind == FirstKind(ys) && q1.cur.pos == at + len + 2 + |Literal(FirstKind(ys))|
    requires Reads(src, at + len + 2, Rest(ys))
    ensures OnLine(src, ys, q1, at1) && at1 == at + len + 2
  {
    at1 := at + len + 2;
    assert IsCommand(ys[0].command);
    var kind := FirstKind(ys);
    assert Literal(kind) == ys[0].command;
    assert 1 <= kind <= 12;
  }

  /** The loop of `TimedSequence` on the lines of `xs`: one entry per line,
      stopping at SEQUENCE_END, two bytes before the end of the text. */
  lemma {:induction false} LoopReads(src: Source, xs: seq<TimedInput>, p: PState, at: int, now: int)
    returns (q: PState)
    requires OnLine(src, xs, p, at)
    ensures TimedLoopS(src, p, now) == Ok(q)
    ensures q.la.kind == 15 && q.cur.pos == at + |Rest(xs)| - 2
    ensures q.inputs == p.inputs + ReparsedAll(xs, now) && q.reported == p.reported
    decreases |xs|
  {
    if |xs| == 1 {
      q := LoopLast(src, xs, p, at, now);
    } else {
      var q1 := LoopHead(src, xs, p, at, now);
      KnownTail(xs);
      var at1 := NextLine(src, xs[1..], at, |SourceLine(xs[0])|, q1);
      q := LoopReads(src, xs[1..], q1, at1, now);
      Associative(p.inputs, [Reparsed(xs[0], now)], ReparsedAll(xs[1..], now));
    }
  }

  /** The line of the last input: the loop reads its entry and stops at
      SEQUENCE_END. */
  lemma {:induction false} LoopLast(src: Source, xs: seq<TimedInput>, p: PState, at: int, now: int)
    returns (q: PState)
    requires OnLine(src, xs, p, at) && |xs| == 1
    ensures TimedLoopS(src, p, now) == Ok(q)
    ensures q.la.kind == 15 && q.cur.pos == at + |Rest(xs)| - 2
    ensures q.inputs == p.inputs + ReparsedAll(xs, now) && q.reported == p.reported
  {
    q := LoopHead(src, xs, p, at, now);
    assert xs[1..] == [];
    EndLineText();
    assert TimedLoopS(src, q, now) == Ok(q);
  }

  // ---------------------------------------------------------------------------
  // The whole text
  // ---------------------------------------------------------------------------

  /** `Rest` is the text `AppendLine` writes for the input lines and
      SEQUENCE_END. */
  lemma {:induction false} RestIsLines(xs: seq<TimedInput>)
    ensures Rest(xs) == Lines(SourceLines(xs) + [EndLine])
    decreases |xs|
  {
    if |xs| == 0 {
      EndLineText();
      assert SourceLines(xs) + [EndLine] == [EndLine];
    } else {
      var line, tail := SourceLine(xs[0]), SourceLines(xs[1..]) + [EndLine];
      SourceLinesTail(xs);
      assert SourceLines(xs) + [EndLine] == [line] + tail;
      calc {
        Lines([line] + tail);
        { LinesAppend([line], tail); }
        Lines([line]) + Lines(tail);
        { LinesOne(line); RestIsLines(xs[1..]); }
        line + NewLine + Rest(xs[1..]);
      }
    }
  }

  lemma LinesOne(line: string)
    ensures Lines([line]) == line + NewLine
  {
    assert [line][..0] == [];
  }

  /** The lines of the inputs: the first input's line, then the others'. */
  lemma {:induction false} SourceLinesTail(xs: seq<TimedInput>)
    requires |xs| > 0
    ensures SourceLines(xs) == [SourceLine(xs[0])] + SourceLines(xs[1..])
    decreases |xs|
  {
    var n := |xs|;
    if n == 1 {
      assert xs[1..] == [] && xs[..0] == [];
    } else {
      var init := xs[..n - 1];
      SourceLinesTail(init);
      assert init[0] == xs[0] && init[1..] == xs[1..][..n - 2] && xs[1..][n - 2] == xs[n - 1];
      Associative([SourceLine(xs[0])], SourceLines(init[1..]), [SourceLine(xs[n - 1])]);
    }
  }


  /** The text is SEQUENCE_START's line, then `Rest`. */
  lemma {:induction false} TextShape(s: seq<TimedInput>)
    requires |s| > 0
    ensures SourceText(s) == StartLine + NewLine + Rest(s)
  {
    var ls := [StartLine] + SourceLines(s) + [EndLine];
    LinesCons(ls);
    assert ls[1..] == SourceLines(s) + [EndLine];
    RestIsLines(s);
  }

  /** `Rest` ends with a line break. */
  lemma {:induction false} RestEnds(xs: seq<TimedInput>)
    ensures |Rest(xs)| >= 14 && Rest(xs)[|Rest(xs)| - 2..] == NewLine
    decreases |xs|
  {
    if |xs| > 0 {
      RestEnds(xs[1..]);
      var r := Rest(xs[1..]);
      assert Rest(xs) == (SourceLine(xs[0]) + NewLine) + r;
      assert Rest(xs)[|Rest(xs)| - 2..] == r[|r| - 2..];
    }
  }

  lemma ReadsPrefix(src: Source, at: int, w: string, n: int)
    requires Reads(src, at, w) && 0 <= n <= |w|
    ensures Reads(src, at, w[..n])
  {
  }

  /** Where the parts of the text lie among the bytes. */
  lemma {:induction false} TextBytes(s: seq<TimedInput>, src: Source)
    requires |s| > 0 && Known(s) && src == Source(SourceBytes(s), true)
    ensures |src.data| == 16 + |Rest(s)| && src.data[0] == 'S' as int
    ensures Reads(src, 0, StartLine) && Blank(src, 14, 16)
    ensures Reads(src, 16, Rest(s)) && Reads(src, 16, s[0].command)
    ensures Blank(src, |src.data| - 2, |src.data|)
  {
    TextHead(s, src);
    RestEnds(s);
    LineBreakAt(src, 16, Rest(s));
    FirstWord(s, src);
  }

  /** SEQUENCE_START and its line break, then the rest. */
  lemma {:induction false} TextHead(s: seq<TimedInput>, src: Source)
    requires |s| > 0 && Known(s) && src == Source(SourceBytes(s), true)
    ensures |src.data| == 16 + |Rest(s)| && src.data[0] == 'S' as int
    ensures Reads(src, 0, StartLine) && Blank(src, 14, 16) && Reads(src, 16, Rest(s))
  {
    TextShape(s);
    assert Reads(src, 0, SourceText(s));
    ReadsSplit(src, 0, StartLine + NewLine, Rest(s));
    ReadsSplit(src, 0, StartLine, NewLine);
    ReadsBlank(src, 14, NewLine);
  }

  /** The bytes of a text ending in a line break end in whitespace. */
  lemma LineBreakAt(src: Source, at: int, w: string)
    requires Reads(src, at, w) && |w| >= 2 && w[|w| - 2..] == NewLine
    ensures Blank(src, at + |w| - 2, at + |w|)
  {
    assert w == w[..|w| - 2] + NewLine;
    ReadsSplit(src, at, w[..|w| - 2], NewLine);
    ReadsBlank(src, at + |w| - 2, NewLine);
  }

  /** The first input line starts with the first command. */
  lemma {:induction false} FirstWord(s: seq<TimedInput>, src: Source)
    requires |s| > 0 && Known(s) && src == Source(SourceBytes(s), true)
    ensures Reads(src, 16, s[0].command)
  {
    TextHead(s, src);
    ReadsLine(src, s, 16);
    var line := SourceLine(s[0]);
    var w := line + NewLine + Literal(FirstKind(s[1..]));
    KnownTail(s);
    LineStartsWithCommand(s[0]);
    ReadsPrefix(src, 16, w, |s[0].command|);
    assert w[..|s[0].command|] == line[..|s[0].command|];
  }

  /** `TimedSequence` on a command is its loop. */
  lemma SequenceIsLoop(src: Source, p: PState, now: int)
    requires Fits(src, p.cur) && 1 <= p.la.kind <= 12
    ensures TimedSequenceS(src, p, now) == TimedLoopS(src, p, now)
  {
  }

  /** `Parse` takes SEQUENCE_START as its first lookahead. */
  lemma {:induction false} Opening(src: Source) returns (p1: PState)
    requires src.canSeek && |src.data| > 0 && src.data[0] == 'S' as int && Reads(src, 0, StartLine)
    ensures Init(src).Ok? && GetS(src, Start(Init(src).value).(la := NoToken)) == Ok(p1)
    ensures Fits(src, p1.cur) && p1.la.kind == 14 && p1.cur.pos == 14 && p1.reported == []
  {
    InitPlain(src);
    var p0 := Start(Init(src).value);
    assert p0.(la := NoToken) == p0;
    WordAfterWs(src, p0.cur, 0, 14);
    p1 := GetS(src, p0).value;
  }

  /** `Expect(SEQUENCE_START)` takes the first command as lookahead. */
  lemma {:induction false} FirstCommand(src: Source, p1: PState, c: string) returns (p2: PState)
    requires src.canSeek && IsCommand(c) && Blank(src, 14, 16) && Reads(src, 16, c)
    requires Fits(src, p1.cur) && p1.la.kind == 14 && p1.cur.pos == 14
    ensures ExpectS(src, p1.(result := p1.result.(success := true)), 14) == Ok(p2)
    ensures Fits(src, p2.cur) && 1 <= p2.la.kind <= 12 && Literal(p2.la.kind) == c
    ensures p2.cur.pos == 16 + |c| && p2.reported == p1.reported
  {
    var kind := CommandKind(c);
    WordAfterWs(src, p1.cur, 16, kind);
    p2 := GetS(src, p1.(result := p1.result.(success := true))).value;
  }

  /** `TimedSequence` reads one entry per input line and stops at
      SEQUENCE_END, two bytes before the end. */
  lemma {:induction false} Inputs(s: seq<TimedInput>, src: Source, p2: PState, now: int) returns (p3: PState)
    requires |s| > 0 && Known(s) && src == Source(SourceBytes(s), true)
    requires Fits(src, p2.cur) && 1 <= p2.la.kind <= 12 && Literal(p2.la.kind) == s[0].command
    requires p2.cur.pos == 16 + |s[0].command|
    ensures TimedSequenceS(src, p2.(inputs := []), now) == Ok(p3) && Fits(src, p3.cur)
    ensures p3.la.kind == 15 && p3.cur.pos == |src.data| - 2
    ensures p3.inputs == ReparsedAll(s, now) && p3.reported == p2.reported
  {
    TextHead(s, src);
    var p := p2.(inputs := []);
    p3 := LoopReads(src, s, p, 16, now);
    SequenceIsLoop(src, p, now);
  }

  /** `Expect(SEQUENCE_END)` leaves EOF as lookahead when only a line break
      follows. */
  lemma {:induction false} Closing(src: Source, p3: PState) returns (p4: PState)
    requires src.canSeek && Fits(src, p3.cur) && p3.la.kind == 15 && Blank(src, p3.cur.pos, |src.data|)
    ensures ExpectS(src, p3, 15) == Ok(p4) && Fits(src, p4.cur)
    ensures p4.la.kind == eofSym && p4.cur.ch == EOF && p4.inputs == p3.inputs && p4.reported == p3.reported
  {
    EofAfterWs(src, p3.cur);
    p4 := GetS(src, p3).value;
  }

  /** After SEQUENCE_END the semantic actions change only the nested
      result; they throw only when the generator's sum of the delays
      overflows. */
  lemma {:induction false} Actions(src: Source, p: PState, now: int, p2: PState, p3: PState, p4: PState)
    requires Fits(src, p.cur)
    requires ExpectS(src, p.(result := p.result.(success := true)), 14) == Ok(p2)
    requires TimedSequenceS(src, p2.(inputs := []), now) == Ok(p3) && ExpectS(src, p3, 15) == Ok(p4)
    ensures var r := MortalKombatS(src, p, now);
      && (r.Ok? ==> r.value == p4.(result := r.value.result))
      && (r.Throw? ==> r.message == OverflowMessage && SumOverflows(Timings(p4.inputs)))
  {
  }

  /** `Expect(EOF)` at the end of the input changes neither the entries nor
      the errors. */
  lemma {:induction false} End(src: Source, p5: PState) returns (p6: PState)
    requires Fits(src, p5.cur) && p5.la.kind == eofSym && p5.cur.ch == EOF
    ensures ExpectS(src, p5, 0) == Ok(p6) && p6.inputs == p5.inputs && p6.reported == p5.reported
  {
    EofFixpoint(src, p5.cur);
    p6 := GetS(src, p5).value;
  }

  /** The converter's text of a non-empty sequence of known commands parses
      without a syntax error into one entry per input, with its command and,
      as `TimingMs`, its positive delay; the only exception is the
      generator's overflowing sum of those delays. */
  lemma {:induction false} RoundTrip(s: seq<TimedInput>, now: int)
    requires |s| > 0 && Known(s)
    ensures var r := ParseSource(Source(SourceBytes(s), true), now);
      && (r.Ok? ==> r.value.reported == [] && r.value.inputs == ReparsedAll(s, now))
      && (r.Throw? ==> r.message == OverflowMessage && SumOverflows(Timings(ReparsedAll(s, now))))
  {
    var src := Source(SourceBytes(s), true);
    TextBytes(s, src);
    var p1 := Opening(src);
    var p2 := FirstCommand(src, p1, s[0].command);
    var p3 := Inputs(s, src, p2, now);
    var p4 := Closing(src, p3);
    Actions(src, p1, now, p2, p3, p4);
    var r := MortalKombatS(src, p1, now);
    if r.Ok? {
      var p6 := End(src, r.value);
    }
  }

  /** Compiling the converter's plain text compiles the reparsed entries,
      unless the parser's sum of delays overflows. Those entries carry their
      delay in `TimingMs` and none in `MillisecondsSincePrevious`, which is
      what the compilation checks, so two inputs or more never compile. */
  lemma {:induction false} ConvertedSourceCompiles(s: seq<TimedInput>, now: int, date: string)
    requires |s| > 0 && Known(s)
    ensures var r := ParseSource(Source(SourceBytes(s), true), now);
      var c := Facade.CompileSource(SourceBytes(s), now, date);
      && (r.Ok? ==> c == Facade.CompileSequence(ReparsedAll(s, now), date))
      && (r.Throw? ==> c == Facade.Failed([Facade.SourceErrorPrefix + OverflowMessage]))
      && (|s| >= 2 ==> !c.success)
  {
    RoundTrip(s, now);
    var r := ParseSource(Source(SourceBytes(s), true), now);
    if r.Ok? && |s| >= 2 {
      var xs := ReparsedAll(s, now);
      assert xs[1] == Reparsed(s[1], now);
      Facade.ZeroGapFails(xs, date);
    }
  }

  // ---------------------------------------------------------------------------
  // The commented text
  // ---------------------------------------------------------------------------

  /** The scanner knows no comments: a source whose first byte is `/`, as
      the commented text's is, has an unknown first token. */
  lemma {:induction false} SlashOpening(src: Source) returns (p1: PState)
    requires src.canSeek && |src.data| > 0 && src.data[0] == '/' as int
    ensures Init(src).Ok? && GetS(src, Start(Init(src).value).(la := NoToken)) == Ok(p1)
    ensures Fits(src, p1.cur) && p1.la.kind == noSym && p1.errDist >= minErrDist && p1.reported == []
  {
    InitPlain(src);
    var c := Init(src).value;
    var p0 := Start(c);
    assert p0.(la := NoToken) == p0;
    UnknownToken(src, c);
    p1 := GetS(src, p0).value;
  }

  /** A first token other than `SEQUENCE_START` is reported as missing
      `SEQUENCE_START`, and the report stays to the end of the parse. */
  lemma {:induction false} MissingStartReported(src: Source, p1: PState, now: int)
    requires Fits(src, p1.cur) && p1.la.kind != 14 && p1.errDist >= minErrDist
    ensures var r := MortalKombatS(src, p1, now);
      r.Ok? ==> var q := ExpectS(src, r.value, 0); q.Ok? ==> |q.value.reported| > 0
  {
    var e := ExpectS(src, p1.(result := p1.result.(success := true)), 14).value;
    assert |e.reported| > 0;
    var r := MortalKombatS(src, p1, now);
    if r.Ok? {
      MortalKombatKeepsReports(src, p1, now);
      var q := ExpectS(src, r.value, 0);
      if q.Ok? {
        assert r.value.reported <= q.value.reported;
      }
    }
  }

  /** The text `ConvertToSourceCodeWithComments` writes begins with a
      comment, so reading it back always fails: the parse throws or reports
      a syntax error, and compiling it fails, whatever follows. */
  lemma {:induction false} CommentedNotCompiled(s: seq<TimedInput>, date: string, data: seq<byte>, now: int, date2: string)
    requires |s| > 0 && |data| > 0 && data[0] as int == CommentedText(s, date)[0] as int
    ensures var r := ParseSource(Source(data, true), now);
      r.Throw? || |r.value.reported| > 0
    ensures !Facade.CompileSource(data, now, date2).success
  {
    CommentedStartsWithSlash(s, date);
    var src := Source(data, true);
    var p1 := SlashOpening(src);
    MissingStartReported(src, p1, now);
  }
}
