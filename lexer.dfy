/** The scanner's automaton as functions over the input bytes (Scanner.cs,
    `Init`, `NextCh`, `AddCh`, `NextToken`). The imperative `Scanner` class
    is proved to compute exactly these functions; the lemmas here state what
    the automaton recognises. */
module Lexer {
  import opened Base
  import opened ScanBuffer

  const EOL: int := 10
  const CR: int := 13
  const eofSym: int := 0
  const maxT: int := 16
  const noSym: int := 16

  /** A token with the fields the parsers read (`next` is the scanner's peek list). */
  datatype Token = Token(kind: int, pos: int, charPos: int, col: int, line: int, val: string)

  /** What the scanner reads: the stream's bytes and whether it can seek. */
  datatype Source = Source(data: seq<byte>, canSeek: bool)

  /** The scanner's position: the buffer's `Pos` (the next byte to read) and the
      fields `ch`, `pos`, `line`, `col` and `charPos` describing the current character. */
  datatype Cursor = Cursor(bpos: int, ch: int, pos: int, line: int, col: int, charPos: int)

  /** The outcome of running the automaton from some state. */
  datatype Scanned = Scanned(kind: int, text: string, cursor: Cursor)

  /** The buffer's `Pos` right after construction: an empty seekable stream
      leaves `bufStart` at `int.MaxValue`. */
  function StartPos(src: Source): int {
    if src.canSeek && |src.data| == 0 then INT_MAX else 0
  }

  /** A cursor that `NextCh` produced: `ch` is the byte at `pos` (a lone CR read
      as EOL) and the buffer is one byte further, or `ch` is EOF and nothing is left. */
  ghost predicate Fits(src: Source, c: Cursor) {
    if c.ch == EOF then c.pos == c.bpos && |src.data| <= c.bpos
    else
      && 0 <= c.pos < |src.data| && c.bpos == c.pos + 1
      && (c.ch == src.data[c.pos] || (c.ch == EOL && src.data[c.pos] == CR))
  }

  /** Input still ahead of the cursor, the current character included. */
  function Remaining(src: Source, c: Cursor): nat {
    if c.bpos <= |src.data| then |src.data| - c.bpos + (if c.ch == EOF then 0 else 1) else 0
  }

  predicate IsWs(ch: int) {
    ch == ' ' as int || 9 <= ch <= 10 || ch == CR
  }

  predicate IsWsChar(c: char) {
    c == ' ' || c == '\t' || c == '\n' || c == '\r'
  }

  predicate IsDigitCode(ch: int) {
    '0' as int <= ch <= '9' as int
  }

  /** A stream that cannot seek throws when a CR is its last byte, because
      `NextCh` peeks behind every CR. */
  predicate Safe(src: Source) {
    src.canSeek || |src.data| == 0 || src.data[|src.data| - 1] != CR
  }

  /** The byte at `bpos`, a CR not followed by LF read as EOL, and the
      position after it; peeking past the end of a stream that cannot seek
      throws. */
  function ReadCh(src: Source, bpos: int): (r: Result<(int, int)>)
    requires 0 <= bpos
    ensures r.Throw? <==> !src.canSeek && ByteAt(src.data, bpos) == CR && bpos + 1 == |src.data|
    ensures r.Throw? ==> r.message == NotSupportedMessage
  {
    var b := ByteAt(src.data, bpos);
    var next := if b == EOF then bpos else bpos + 1;
    if b == CR && !src.canSeek && next == |src.data| then Throw(NotSupportedMessage)
    else Ok((if b == CR && ByteAt(src.data, next) != EOL then EOL else b, next))
  }

  /** `NextCh()`: reads the next byte, turning a CR that is not followed by LF
      into EOL; an EOL starts a new line. */
  function NextCh(src: Source, c: Cursor): (r: Result<Cursor>)
    requires 0 <= c.bpos
    ensures r.Throw? <==> !src.canSeek && ByteAt(src.data, c.bpos) == CR && c.bpos + 1 == |src.data|
    ensures r.Throw? ==> r.message == NotSupportedMessage
    ensures r.Ok? ==> Fits(src, r.value) && r.value.pos == c.bpos && r.value.charPos == c.charPos + 1
    ensures r.Ok? ==> r.value.line == c.line + (if r.value.ch == EOL then 1 else 0)
    ensures r.Ok? ==> r.value.col == (if r.value.ch == EOL then 0 else c.col + 1)
    ensures r.Ok? && c.ch != EOF && Fits(src, c) ==> Remaining(src, r.value) < Remaining(src, c)
    ensures r.Ok? && c.ch == EOF && Fits(src, c) ==> r.value.ch == EOF && r.value.bpos == c.bpos
  {
    var x :- ReadCh(src, c.bpos);
    var (ch, bpos) := x;
    if ch == EOL then Ok(Cursor(bpos, ch, c.bpos, c.line + 1, 0, c.charPos + 1))
    else Ok(Cursor(bpos, ch, c.bpos, c.line, c.col + 1, c.charPos + 1))
  }

  lemma NextChSafe(src: Source, c: Cursor)
    requires 0 <= c.bpos && Safe(src)
    ensures NextCh(src, c).Ok?
  {
  }

  /** CR LF advances the line once: the CR stays a CR and the LF ends the line. */
  lemma CrLfCountsOnce(src: Source, c: Cursor)
    requires 0 <= c.bpos && c.bpos + 1 < |src.data|
    requires src.data[c.bpos] == CR && src.data[c.bpos + 1] == EOL
    ensures NextCh(src, c).Ok? && NextCh(src, c).value.ch == CR && NextCh(src, c).value.line == c.line
    ensures var c1 := NextCh(src, c).value;
            NextCh(src, c1).Ok? && NextCh(src, c1).value.line == c.line + 1 && NextCh(src, c1).value.col == 0
  {
  }

  /** A lone CR ends a line like LF does. */
  lemma LoneCrEndsLine(src: Source, c: Cursor)
    requires 0 <= c.bpos && c.bpos + 1 < |src.data|
    requires src.data[c.bpos] == CR && src.data[c.bpos + 1] != EOL
    ensures NextCh(src, c) == Ok(Cursor(c.bpos + 1, EOL, c.bpos, c.line + 1, 0, c.charPos + 1))
  {
  }

  function BomMessage(ch1: int, ch2: int): string
    requires 0 <= ch1 && 0 <= ch2
  {
    "illegal byte order mark: EF " + HexX2(ch1) + " " + HexX2(ch2)
  }

  /** `Init()`: line 1, column 0, then the first character; a leading EF must
      start the UTF-8 byte order mark EF BB BF, which is skipped with the
      column and character count reset. */
  function Init(src: Source): (r: Result<Cursor>)
    ensures r.Ok? ==> Fits(src, r.value)
  {
    var c0 := Cursor(StartPos(src), 0, -1, 1, 0, -1);
    var c1 :- NextCh(src, c0);
    SkipBom(src, c1)
  }

  /** The part of `Init` after the first character: EF must be followed by
      BB BF, and the byte order mark is then skipped. */
  function SkipBom(src: Source, c1: Cursor): (r: Result<Cursor>)
    requires Fits(src, c1)
    ensures r.Ok? ==> Fits(src, r.value)
  {
    if c1.ch == 0xEF then
      var c2 :- NextCh(src, c1);
      var c3 :- NextCh(src, c2);
      if c2.ch != 0xBB || c3.ch != 0xBF then Throw(BomMessage(c2.ch, c3.ch))
      else NextCh(src, c3.(col := 0, charPos := -1))
    else Ok(c1)
  }

  /** Input that does not start with EF begins at byte 0, line 1, column 1
      (unless its first byte ends a line). */
  lemma InitPlain(src: Source)
    requires |src.data| > 0 && src.data[0] != 0xEF && src.data[0] != CR && src.data[0] != EOL
    ensures Init(src) == Ok(Cursor(1, src.data[0], 0, 1, 1, 0))
  {
  }

  /** A byte order mark is skipped: the first character after it is at byte 3,
      line 1, column 1, character 0. */
  lemma InitSkipsBom(src: Source)
    requires |src.data| > 3 && src.data[..3] == [0xEF, 0xBB, 0xBF]
    requires src.data[3] != CR && src.data[3] != EOL
    ensures Init(src) == Ok(Cursor(4, src.data[3], 3, 1, 1, 0))
  {
    assert src.data[0] == 0xEF && src.data[1] == 0xBB && src.data[2] == 0xBF;
  }

  /** Any other leading EF is an exception naming the two bytes that follow. */
  lemma InitRejectsBadBom(src: Source)
    requires |src.data| >= 3 && src.data[0] == 0xEF && (src.data[1] != 0xBB || src.data[2] != 0xBF)
    requires src.data[1] != CR && src.data[2] != CR
    ensures Init(src) == Throw(BomMessage(src.data[1], src.data[2]))
  {
  }

  /** The whitespace loop at the start of `NextToken`. */
  function SkipWs(src: Source, c: Cursor): (r: Result<Cursor>)
    requires Fits(src, c)
    ensures r.Ok? ==> Fits(src, r.value) && !IsWs(r.value.ch)
    ensures r.Ok? ==> Remaining(src, r.value) <= Remaining(src, c)
    ensures r.Ok? && !IsWs(c.ch) ==> r.value == c
    decreases Remaining(src, c)
  {
    if IsWs(c.ch) then
      var c' :- NextCh(src, c);
      SkipWs(src, c')
    else Ok(c)
  }

  /** `start`: the state entered on the first character of a token
      (-1 at EOF, 0 when no token starts with it). */
  function StartState(ch: int): int {
    if ch == 'U' as int then 1
    else if ch == 'D' as int then 3
    else if ch == 'L' as int then 42
    else if ch == 'R' as int then 43
    else if ch == 'F' as int then 14
    else if ch == 'B' as int then 44
    else if ch == 'H' as int then 45
    else if ch == 'T' as int then 31
    else if ch == 'S' as int then 46
    else if ch == EOF then -1
    else 0
  }

  /** The transitions of the non-accepting states other than 33; 0 is `goto case 0`. */
  function Step(state: int, ch: int): (next: int)
    ensures 0 <= next && (next != 0 ==> ch != EOF && !IsWs(ch))
  {
    var c := ch;
    if state == 1 then (if c == 'P' as int then 2 else 0)
    else if state == 3 then (if c == 'O' as int then 4 else 0)
    else if state == 4 then (if c == 'W' as int then 5 else 0)
    else if state == 5 then (if c == 'N' as int then 6 else 0)
    else if state == 7 then (if c == 'F' as int then 8 else 0)
    else if state == 8 then (if c == 'T' as int then 9 else 0)
    else if state == 10 then (if c == 'G' as int then 11 else 0)
    else if state == 11 then (if c == 'H' as int then 12 else 0)
    else if state == 12 then (if c == 'T' as int then 13 else 0)
    else if state == 14 then (if c == 'O' as int then 15 else 0)
    else if state == 15 then (if c == 'R' as int then 16 else 0)
    else if state == 16 then (if c == 'W' as int then 17 else 0)
    else if state == 17 then (if c == 'A' as int then 18 else 0)
    else if state == 18 then (if c == 'R' as int then 19 else 0)
    else if state == 19 then (if c == 'D' as int then 20 else 0)
    else if state == 21 then (if c == 'C' as int then 22 else 0)
    else if state == 22 then (if c == 'K' as int then 23 else 0)
    else if state == 29 then (if c == 'N' as int then 30 else 0)
    else if state == 31 then (if c == ':' as int then 32 else 0)
    else if state == 32 then (if IsDigitCode(c) then 33 else 0)
    else if state == 34 then (if c == 'T' as int then 35 else 0)
    else if state == 35 then (if c == 'A' as int then 36 else 0)
    else if state == 36 then (if c == 'R' as int then 37 else 0)
    else if state == 37 then (if c == 'T' as int then 38 else 0)
    else if state == 39 then (if c == 'N' as int then 40 else 0)
    else if state == 40 then (if c == 'D' as int then 41 else 0)
    else if state == 42 then
      (if c == 'E' as int then 7 else if c == 'P' as int then 24 else if c == 'K' as int then 26 else 0)
    else if state == 43 then (if c == 'I' as int then 10 else if c == 'U' as int then 29 else 0)
    else if state == 44 then (if c == 'A' as int then 21 else if c == 'L' as int then 28 else 0)
    else if state == 45 then (if c == 'P' as int then 25 else if c == 'K' as int then 27 else 0)
    else if state == 46 then (if c == 'E' as int then 47 else 0)
    else if state == 47 then (if c == 'Q' as int then 48 else 0)
    else if state == 48 then (if c == 'U' as int then 49 else 0)
    else if state == 49 then (if c == 'E' as int then 50 else 0)
    else if state == 50 then (if c == 'N' as int then 51 else 0)
    else if state == 51 then (if c == 'C' as int then 52 else 0)
    else if state == 52 then (if c == 'E' as int then 53 else 0)
    else if state == 53 then (if c == '_' as int then 54 else 0)
    else if state == 54 then (if c == 'S' as int then 34 else if c == 'E' as int then 39 else 0)
    else 0
  }

  /** The token kind of an accepting state (0 for the others; state 33, the
      digit loop of `T:`, accepts with kind 13 and is handled apart). */
  function FinalKind(state: int): int {
    if state == 2 then 1
    else if state == 6 then 2
    else if state == 9 then 3
    else if state == 13 then 4
    else if state == 20 then 5
    else if state == 23 then 6
    else if state == 24 then 7
    else if state == 25 then 8
    else if state == 26 then 9
    else if state == 27 then 10
    else if state == 28 then 11
    else if state == 30 then 12
    else if state == 38 then 14
    else if state == 41 then 15
    else 0
  }

  /** `AddCh()` on the token text: the current character is appended and the
      next one read, unless the current one is EOF. */
  function AddCh(src: Source, c: Cursor, text: string): (r: Result<(string, Cursor)>)
    requires Fits(src, c) && (c.ch == EOF || 0 <= c.ch < 256 || c.ch == EOL)
    ensures r.Ok? ==> Fits(src, r.value.1)
    ensures r.Ok? && c.ch != EOF ==>
              && r.value.0 == text + [c.ch as char]
              && Remaining(src, r.value.1) < Remaining(src, c)
              && r.value.1.pos == c.pos + 1
    ensures r.Ok? && c.ch == EOF ==> r.value == (text, c)
    ensures c.ch == EOF ==> r.Ok?
  {
    if c.ch != EOF then
      var c' :- NextCh(src, c);
      Ok((text + [c.ch as char], c'))
    else Ok((text, c))
  }

  /** Characters of the input at the cursor: the current one, then the bytes
      the buffer has not yet delivered. */
  ghost predicate At(src: Source, c: Cursor, w: string) {
    && |w| > 0 && Fits(src, c) && c.ch == w[0] as int
    && c.bpos + |w| - 1 <= |src.data|
    && forall i :: 1 <= i < |w| ==> src.data[c.bpos + i - 1] == w[i] as int
  }

  /** The `switch (state)` of `NextToken`, from `state` on, with the token text
      read so far. No state backtracks: a mismatch ends the token as noSym. */
  function Run(src: Source, state: int, c: Cursor, text: string): (r: Result<Scanned>)
    requires Fits(src, c)
    ensures r.Ok? ==> Fits(src, r.value.cursor) && 0 <= r.value.kind <= maxT
    ensures r.Ok? ==> (r.value.kind == eofSym <==> state == -1)
    ensures state == -1 ==> r == Ok(Scanned(eofSym, text, c))
    ensures r.Ok? ==> Remaining(src, r.value.cursor) <= Remaining(src, c) && |text| <= |r.value.text|
    decreases Remaining(src, c), if state == 0 then 0 else 1
  {
    if state == -1 then Ok(Scanned(eofSym, text, c))
    else if state == 0 then Ok(Scanned(noSym, text, c))
    else if FinalKind(state) != 0 then Ok(Scanned(FinalKind(state), text, c))
    else if state == 33 then
      if IsDigitCode(c.ch) then
        var (text', c') :- AddCh(src, c, text);
        Run(src, 33, c', text')
      else Ok(Scanned(13, text, c))
    else
      var next := Step(state, c.ch);
      if next == 0 then Run(src, 0, c, text)
      else
        var (text', c') :- AddCh(src, c, text);
        Run(src, next, c', text')
  }

  /** The token text grew from `text` to `s.text` by the input characters
      between `c` and `s.cursor`, none of them whitespace. */
  ghost predicate Extends(src: Source, c: Cursor, text: string, s: Scanned) {
    && Remaining(src, s.cursor) <= Remaining(src, c)
    && |text| <= |s.text| && s.text[..|text|] == text
    && s.cursor.pos == c.pos + |s.text| - |text|
    && (|s.text| > |text| ==> 0 <= c.pos && s.cursor.pos <= |src.data|)
    && (forall i :: |text| <= i < |s.text| ==> !IsWsChar(s.text[i]))
    && (forall i :: |text| <= i < |s.text| ==> s.text[i] == src.data[c.pos + i - |text|] as char)
  }

  lemma ExtendsStep(src: Source, c: Cursor, text: string, c': Cursor, s: Scanned)
    requires Fits(src, c) && c.ch != EOF && !IsWs(c.ch) && (0 <= c.ch < 256 || c.ch == EOL)
    requires AddCh(src, c, text) == Ok((text + [c.ch as char], c'))
    requires Extends(src, c', text + [c.ch as char], s)
    ensures Extends(src, c, text, s)
  {
    var text' := text + [c.ch as char];
    assert s.text[..|text|] == s.text[..|text'|][..|text|];
    assert c.ch == src.data[c.pos];
    forall i | |text| <= i < |s.text|
      ensures !IsWsChar(s.text[i]) && s.text[i] == src.data[c.pos + i - |text|] as char
    {
      if i == |text| {
        assert s.text[i] == s.text[..|text'|][i] == c.ch as char;
      }
    }
  }

  /** What `Run` adds to the token text are the input characters it passed,
      none of them whitespace, and it never moves backwards. */
  lemma {:induction false} RunText(src: Source, state: int, c: Cursor, text: string)
    requires Fits(src, c) && Run(src, state, c, text).Ok?
    ensures Extends(src, c, text, Run(src, state, c, text).value)
    decreases Remaining(src, c), if state == 0 then 0 else 1
  {
    var s := Run(src, state, c, text).value;
    if state == -1 || state == 0 || FinalKind(state) != 0 {
      assert s.text == text && s.cursor == c;
    } else if state == 33 {
      if IsDigitCode(c.ch) {
        var (text', c') := AddCh(src, c, text).value;
        RunText(src, 33, c', text');
        ExtendsStep(src, c, text, c', s);
      } else {
        assert s.text == text && s.cursor == c;
      }
    } else {
      var next := Step(state, c.ch);
      if next == 0 {
        RunText(src, 0, c, text);
      } else {
        var (text', c') := AddCh(src, c, text).value;
        RunText(src, next, c', text');
        ExtendsStep(src, c, text, c', s);
      }
    }
  }

  /** `NextToken()`: skips whitespace, then reads the token there. */
  function NextToken(src: Source, c: Cursor): (r: Result<(Token, Cursor)>)
    requires Fits(src, c)
    ensures r.Ok? ==> Fits(src, r.value.1)
  {
    var c0 :- SkipWs(src, c);
    Lex(src, c0)
  }

  /** The rest of `NextToken()`: notes where the token starts, adds its first
      character and runs the automaton from the start state. Every token has
      a kind in [0, maxT], is EOF exactly when its `val` is empty, and
      consumes input unless it is EOF, which leaves the cursor where it was. */
  function Lex(src: Source, c0: Cursor): (r: Result<(Token, Cursor)>)
    requires Fits(src, c0)
    ensures r.Ok? ==> Fits(src, r.value.1) && 0 <= r.value.0.kind <= maxT
    ensures r.Ok? ==> (r.value.0.kind == eofSym <==> r.value.0.val == "")
    ensures r.Ok? && r.value.0.kind == eofSym ==> r.value.1 == c0 && c0.ch == EOF
    ensures r.Ok? && r.value.0.kind != eofSym ==> Remaining(src, r.value.1) < Remaining(src, c0)
  {
    var (text, c1) :- AddCh(src, c0, "");
    var s :- Run(src, StartState(c0.ch), c1, text);
    Ok((Token(s.kind, c0.pos, c0.charPos, c0.col, c0.line, s.text), s.cursor))
  }

  /** The 14 literals of the grammar, by token kind (13 is the `T:` pattern). */
  function Literal(kind: int): string {
    if kind == 1 then "UP"
    else if kind == 2 then "DOWN"
    else if kind == 3 then "LEFT"
    else if kind == 4 then "RIGHT"
    else if kind == 5 then "FORWARD"
    else if kind == 6 then "BACK"
    else if kind == 7 then "LP"
    else if kind == 8 then "HP"
    else if kind == 9 then "LK"
    else if kind == 10 then "HK"
    else if kind == 11 then "BL"
    else if kind == 12 then "RUN"
    else if kind == 14 then "SEQUENCE_START"
    else if kind == 15 then "SEQUENCE_END"
    else ""
  }

  predicate IsLiteralKind(kind: int) {
    1 <= kind <= 15 && kind != 13
  }

  /** The automaton in `state` spells `w` and then accepts with `kind`,
      passing only through states that neither accept nor loop. */
  predicate Spells(state: int, w: string, i: nat, kind: int)
    requires i <= |w|
    decreases |w| - i
  {
    if i == |w| then kind != 0 && FinalKind(state) == kind
    else
      && state != -1 && state != 0 && state != 33 && FinalKind(state) == 0
      && Step(state, w[i] as int) != 0
      && Spells(Step(state, w[i] as int), w, i + 1, kind)
  }

  lemma SpellsUp()
    ensures Spells(1, "UP", 1, 1)
  {
    assert Spells(2, "UP", 2, 1);
  }

  lemma SpellsDown()
    ensures Spells(3, "DOWN", 1, 2)
  {
    assert Spells(6, "DOWN", 4, 2);
    assert Spells(5, "DOWN", 3, 2);
    assert Spells(4, "DOWN", 2, 2);
  }

  lemma SpellsLeft()
    ensures Spells(42, "LEFT", 1, 3)
  {
    assert Spells(9, "LEFT", 4, 3);
    assert Spells(8, "LEFT", 3, 3);
    assert Spells(7, "LEFT", 2, 3);
  }

  lemma SpellsRight()
    ensures Spells(43, "RIGHT", 1, 4)
  {
    assert Spells(13, "RIGHT", 5, 4);
    assert Spells(12, "RIGHT", 4, 4);
    assert Spells(11, "RIGHT", 3, 4);
    assert Spells(10, "RIGHT", 2, 4);
  }

  lemma SpellsForward()
    ensures Spells(14, "FORWARD", 1, 5)
  {
    assert Spells(20, "FORWARD", 7, 5);
    assert Spells(19, "FORWARD", 6, 5);
    assert Spells(18, "FORWARD", 5, 5);
    assert Spells(17, "FORWARD", 4, 5);
    assert Spells(16, "FORWARD", 3, 5);
    assert Spells(15, "FORWARD", 2, 5);
  }

  lemma SpellsBack()
    ensures Spells(44, "BACK", 1, 6)
  {
    assert Spells(23, "BACK", 4, 6);
    assert Spells(22, "BACK", 3, 6);
    assert Spells(21, "BACK", 2, 6);
  }

  lemma SpellsLp()
    ensures Spells(42, "LP", 1, 7)
  {
    assert Spells(24, "LP", 2, 7);
  }

  lemma SpellsHp()
    ensures Spells(45, "HP", 1, 8)
  {
    assert Spells(25, "HP", 2, 8);
  }

  lemma SpellsLk()
    ensures Spells(42, "LK", 1, 9)
  {
    assert Spells(26, "LK", 2, 9);
  }

  lemma SpellsHk()
    ensures Spells(45, "HK", 1, 10)
  {
    assert Spells(27, "HK", 2, 10);
  }

  lemma SpellsBl()
    ensures Spells(44, "BL", 1, 11)
  {
    assert Spells(28, "BL", 2, 11);
  }

  lemma SpellsRun()
    ensures Spells(43, "RUN", 1, 12)
  {
    assert Spells(30, "RUN", 3, 12);
    assert Spells(29, "RUN", 2, 12);
  }

  /** The shared prefix `SEQUENCE_` leads from state 46 to state 54. */
  lemma SpellsSequencePrefix(w: string, kind: int)
    requires 9 <= |w| && w[..9] == "SEQUENCE_" && Spells(54, w, 9, kind)
    ensures Spells(46, w, 1, kind)
  {
    assert w[5] == 'N' && w[6] == 'C' && w[7] == 'E' && w[8] == '_';
    SpellsEnce(w, kind);
    assert w[1] == 'E' && w[2] == 'Q' && w[3] == 'U' && w[4] == 'E';
    SpellsSequ(w, kind);
  }

  lemma SpellsEnce(w: string, kind: int)
    requires 9 <= |w| && w[5] == 'N' && w[6] == 'C' && w[7] == 'E' && w[8] == '_' && Spells(54, w, 9, kind)
    ensures Spells(50, w, 5, kind)
  {
    SpellsThrough(53, '_', 54, w, 8, kind);
    SpellsThrough(52, 'E', 53, w, 7, kind);
    SpellsThrough(51, 'C', 52, w, 6, kind);
    SpellsThrough(50, 'N', 51, w, 5, kind);
  }

  lemma SpellsSequ(w: string, kind: int)
    requires 5 <= |w| && w[1] == 'E' && w[2] == 'Q' && w[3] == 'U' && w[4] == 'E' && Spells(50, w, 5, kind)
    ensures Spells(46, w, 1, kind)
  {
    SpellsThrough(49, 'E', 50, w, 4, kind);
    SpellsThrough(48, 'U', 49, w, 3, kind);
    SpellsThrough(47, 'Q', 48, w, 2, kind);
    SpellsThrough(46, 'E', 47, w, 1, kind);
  }

  /** One step back along a spelling. */
  lemma SpellsThrough(state: int, ch: char, next: int, w: string, i: nat, kind: int)
    requires i < |w| && w[i] == ch && state != -1 && state != 0 && state != 33 && FinalKind(state) == 0
    requires Step(state, ch as int) == next && next != 0 && Spells(next, w, i + 1, kind)
    ensures Spells(state, w, i, kind)
  {
  }

  lemma SpellsSequenceStart()
    ensures Spells(46, "SEQUENCE_START", 1, 14)
  {
    assert Spells(38, "SEQUENCE_START", 14, 14);
    assert Spells(37, "SEQUENCE_START", 13, 14);
    assert Spells(36, "SEQUENCE_START", 12, 14);
    assert Spells(35, "SEQUENCE_START", 11, 14);
    assert Spells(34, "SEQUENCE_START", 10, 14);
    assert Spells(54, "SEQUENCE_START", 9, 14);
    SpellsSequencePrefix("SEQUENCE_START", 14);
  }

  lemma SpellsSequenceEnd()
    ensures Spells(46, "SEQUENCE_END", 1, 15)
  {
    assert Spells(41, "SEQUENCE_END", 12, 15);
    assert Spells(40, "SEQUENCE_END", 11, 15);
    assert Spells(39, "SEQUENCE_END", 10, 15);
    assert Spells(54, "SEQUENCE_END", 9, 15);
    SpellsSequencePrefix("SEQUENCE_END", 15);
  }

  lemma LiteralsSpell(kind: int)
    requires IsLiteralKind(kind)
    ensures |Literal(kind)| >= 2
    ensures Spells(StartState(Literal(kind)[0] as int), Literal(kind), 1, kind)
  {
    if kind <= 6 {
      DirectionsSpell(kind);
    } else if kind <= 12 {
      ButtonsSpell(kind);
    } else {
      FramesSpell(kind);
    }
  }

  lemma DirectionsSpell(kind: int)
    requires 1 <= kind <= 6
    ensures |Literal(kind)| >= 2
    ensures Spells(StartState(Literal(kind)[0] as int), Literal(kind), 1, kind)
  {
    if kind == 1 {
      assert Literal(kind) == "UP";
      SpellsUp();
    } else if kind == 2 {
      assert Literal(kind) == "DOWN";
      SpellsDown();
    } else if kind == 3 {
      assert Literal(kind) == "LEFT";
      SpellsLeft();
    } else if kind == 4 {
      assert Literal(kind) == "RIGHT";
      SpellsRight();
    } else if kind == 5 {
      assert Literal(kind) == "FORWARD";
      SpellsForward();
    } else if kind == 6 {
      assert Literal(kind) == "BACK";
      SpellsBack();
    }
  }

  lemma ButtonsSpell(kind: int)
    requires 7 <= kind <= 12
    ensures |Literal(kind)| >= 2
    ensures Spells(StartState(Literal(kind)[0] as int), Literal(kind), 1, kind)
  {
    if kind == 7 {
      assert Literal(kind) == "LP";
      SpellsLp();
    } else if kind == 8 {
      assert Literal(kind) == "HP";
      SpellsHp();
    } else if kind == 9 {
      assert Literal(kind) == "LK";
      SpellsLk();
    } else if kind == 10 {
      assert Literal(kind) == "HK";
      SpellsHk();
    } else if kind == 11 {
      assert Literal(kind) == "BL";
      SpellsBl();
    } else if kind == 12 {
      assert Literal(kind) == "RUN";
      SpellsRun();
    }
  }

  lemma FramesSpell(kind: int)
    requires kind == 14 || kind == 15
    ensures |Literal(kind)| >= 2
    ensures Spells(StartState(Literal(kind)[0] as int), Literal(kind), 1, kind)
  {
    if kind == 14 {
      assert Literal(kind) == "SEQUENCE_START";
      SpellsSequenceStart();
    } else if kind == 15 {
      assert Literal(kind) == "SEQUENCE_END";
      SpellsSequenceEnd();
    }
  }

  /** The input from the cursor on reads `w[i..]`: its current character is
      `w[i]` and the bytes the buffer has not delivered yet continue with the rest. */
  ghost predicate Ahead(src: Source, c: Cursor, w: string, i: nat)
    requires i <= |w|
  {
    && Fits(src, c)
    && (i < |w| ==>
          && c.ch == w[i] as int
          && c.bpos + |w| - i - 1 <= |src.data|
          && forall j :: i < j < |w| ==> src.data[c.bpos + j - i - 1] == w[j] as int)
  }

  /** `AddCh` on a character of `w` appends it and moves on to the next one. */
  lemma AheadStep(src: Source, c: Cursor, w: string, i: nat, text: string)
    requires Safe(src) && i < |w| && Ahead(src, c, w, i)
    requires i + 1 < |w| ==> w[i + 1] != '\r'
    requires w[i] != '\n' && w[i] != '\r' && w[i] as int != EOF
    ensures AddCh(src, c, text).Ok?
    ensures AddCh(src, c, text).value.0 == text + [w[i]]
    ensures Ahead(src, AddCh(src, c, text).value.1, w, i + 1)
    ensures AddCh(src, c, text).value.1.pos == c.pos + 1
  {
    NextChSafe(src, c);
    var c' := NextCh(src, c).value;
    assert (w[i] as int) as char == w[i];
    if i + 1 < |w| {
      assert src.data[c.bpos] == w[i + 1] as int;
      forall j | i + 1 < j < |w|
        ensures src.data[c'.bpos + j - (i + 1) - 1] == w[j] as int
      {
      }
    }
  }

  /** One transition of `Run` that matches and consumes the current character. */
  lemma RunMoves(src: Source, state: int, c: Cursor, text: string)
    requires Fits(src, c) && state != -1 && state != 0 && state != 33 && FinalKind(state) == 0
    requires Step(state, c.ch) != 0 && AddCh(src, c, text).Ok?
    ensures var (text', c') := AddCh(src, c, text).value;
      Run(src, state, c, text) == Run(src, Step(state, c.ch), c', text')
  {
  }

  /** An accepting state ends the token without reading further. */
  lemma RunAccepts(src: Source, state: int, c: Cursor, text: string)
    requires Fits(src, c) && FinalKind(state) != 0
    ensures Run(src, state, c, text) == Ok(Scanned(FinalKind(state), text, c))
  {
  }

  /** A spelled word holds neither whitespace nor EOF. */
  lemma {:induction false} SpellsChars(state: int, w: string, i: nat, kind: int)
    requires i <= |w| && Spells(state, w, i, kind)
    ensures forall j :: i <= j < |w| ==> !IsWs(w[j] as int) && w[j] as int != EOF
    decreases |w| - i
  {
    if i < |w| {
      SpellsChars(Step(state, w[i] as int), w, i + 1, kind);
    }
  }

  /** Moving one character of `w` onto the text keeps text and rest together. */
  lemma TakeOne(text: string, w: string, i: nat)
    requires i < |w|
    ensures (text + [w[i]]) + w[i + 1..] == text + w[i..]
  {
    assert w[i..] == [w[i]] + w[i + 1..];
  }

  /** Along a spelled path the automaton consumes `w[i..]` and accepts with
      `kind`: no state inspects the character after the literal. */
  lemma {:induction false} RunSpells(src: Source, state: int, c: Cursor, text: string, w: string, i: nat, kind: int)
    requires Safe(src) && i <= |w| && Spells(state, w, i, kind) && Ahead(src, c, w, i)
    ensures Run(src, state, c, text).Ok?
    ensures Run(src, state, c, text).value.kind == kind
    ensures Run(src, state, c, text).value.text == text + w[i..]
    decreases |w| - i
  {
    if i == |w| {
      assert w[i..] == [];
      RunAccepts(src, state, c, text);
    } else {
      var next := Step(state, w[i] as int);
      SpellsChars(state, w, i, kind);
      AheadStep(src, c, w, i, text);
      var (text', c') := AddCh(src, c, text).value;
      RunMoves(src, state, c, text);
      RunSpells(src, next, c', text', w, i + 1, kind);
      TakeOne(text, w, i);
    }
  }

  /** Each literal of the grammar, read from its first character, is one token
      of its kind whose `val` is the literal. */
  lemma KeywordToken(src: Source, c: Cursor, kind: int)
    requires Safe(src) && IsLiteralKind(kind) && Ahead(src, c, Literal(kind), 0)
    ensures NextToken(src, c).Ok?
    ensures NextToken(src, c).value.0 == Token(kind, c.pos, c.charPos, c.col, c.line, Literal(kind))
    ensures NextToken(src, c).value.1.pos == c.pos + |Literal(kind)|
  {
    var c2 := KeywordLex(src, c, kind);
    assert SkipWs(src, c) == Ok(c);
  }

  /** A keyword at the cursor, which is not whitespace, is read whole. */
  lemma KeywordLex(src: Source, c: Cursor, kind: int) returns (c2: Cursor)
    requires Safe(src) && IsLiteralKind(kind) && Ahead(src, c, Literal(kind), 0)
    ensures Fits(src, c) && !IsWs(c.ch)
    ensures Lex(src, c) == Ok((Token(kind, c.pos, c.charPos, c.col, c.line, Literal(kind)), c2))
    ensures c2.pos == c.pos + |Literal(kind)|
  {
    var w := Literal(kind);
    var c1 := KeywordFirst(src, c, kind);
    var s := KeywordRest(src, StartState(c.ch), c1, kind);
    c2 := s.cursor;
  }

  /** The first character of a keyword is not whitespace; adding it leaves
      the rest of the keyword ahead. */
  lemma KeywordFirst(src: Source, c: Cursor, kind: int) returns (c1: Cursor)
    requires Safe(src) && IsLiteralKind(kind) && Ahead(src, c, Literal(kind), 0)
    ensures Fits(src, c) && !IsWs(c.ch) && |Literal(kind)| >= 2
    ensures AddCh(src, c, "") == Ok(([Literal(kind)[0]], c1))
    ensures Ahead(src, c1, Literal(kind), 1) && c1.pos == c.pos + 1
    ensures Spells(StartState(c.ch), Literal(kind), 1, kind)
  {
    var w := Literal(kind);
    LiteralsSpell(kind);
    assert !IsWs(c.ch) by {
      assert Step(StartState(w[0] as int), w[1] as int) != 0;
    }
    AheadStep(src, c, w, 0, "");
    assert "" + [w[0]] == [w[0]];
    c1 := AddCh(src, c, "").value.1;
  }

  /** From the state after the first character, the automaton reads the
      rest of the keyword and accepts it with its kind. */
  lemma KeywordRest(src: Source, state: int, c1: Cursor, kind: int) returns (s: Scanned)
    requires Safe(src) && IsLiteralKind(kind) && |Literal(kind)| >= 2
    requires Ahead(src, c1, Literal(kind), 1) && Spells(state, Literal(kind), 1, kind)
    ensures Run(src, state, c1, [Literal(kind)[0]]) == Ok(s)
    ensures s.kind == kind && s.text == Literal(kind) && s.cursor.pos == c1.pos + |Literal(kind)| - 1
  {
    var w := Literal(kind);
    var text := [w[0]];
    RunSpells(src, state, c1, text, w, 1, kind);
    assert Fits(src, c1);
    RunText(src, state, c1, text);
    ConsTail(w);
    s := Run(src, state, c1, text).value;
  }

  lemma ConsTail(w: string)
    requires |w| > 0
    ensures [w[0]] + w[1..] == w
  {
  }

  /** State 33 takes the whole digit run and accepts with kind 13 at the first
      character that is not a digit. */
  lemma {:induction false} RunDigits(src: Source, c: Cursor, text: string, w: string, i: nat)
    requires Safe(src) && i <= |w| && Ahead(src, c, w, i)
    requires forall j :: i <= j < |w| ==> '0' <= w[j] <= '9'
    requires 0 <= c.pos && !IsDigitCode(ByteAt(src.data, c.pos + |w| - i))
    ensures Run(src, 33, c, text).Ok?
    ensures Run(src, 33, c, text).value.kind == 13
    ensures Run(src, 33, c, text).value.text == text + w[i..]
    decreases |w| - i
  {
    if i == |w| {
      assert w[i..] == [];
      assert !IsDigitCode(c.ch);
    } else {
      assert IsDigitCode(c.ch);
      AheadStep(src, c, w, i, text);
      var (text', c') := AddCh(src, c, text).value;
      RunDigits(src, c', text', w, i + 1);
      TakeOne(text, w, i);
    }
  }

  /** From state 31 on the `:` of `T:` and digits, the automaton reads the
      colon and the whole digit run and accepts with kind 13. */
  lemma {:induction false} RunTiming(src: Source, c1: Cursor, t1: string, w: string)
    requires Safe(src) && |w| > 2 && w[1] == ':' && forall j :: 2 <= j < |w| ==> '0' <= w[j] <= '9'
    requires Ahead(src, c1, w, 1)
    requires 0 <= c1.pos && !IsDigitCode(ByteAt(src.data, c1.pos + |w| - 1))
    ensures Run(src, 31, c1, t1).Ok?
    ensures Run(src, 31, c1, t1).value.kind == 13
    ensures Run(src, 31, c1, t1).value.text == t1 + w[1..]
  {
    AheadStep(src, c1, w, 1, t1);
    var (t2, c2) := AddCh(src, c1, t1).value;
    assert c1.ch == ':' as int;
    assert Step(31, c1.ch) == 32;
    RunMoves(src, 31, c1, t1);
    assert Run(src, 31, c1, t1) == Run(src, 32, c2, t2);
    RunFirstDigit(src, c2, t2, w);
    TakeOne(t1, w, 1);
  }

  /** State 32 (after `T:`) takes the first digit and goes on in state 33. */
  lemma RunFirstDigit(src: Source, c2: Cursor, t2: string, w: string)
    requires Safe(src) && |w| > 2 && forall j :: 2 <= j < |w| ==> '0' <= w[j] <= '9'
    requires Ahead(src, c2, w, 2)
    requires 0 <= c2.pos && !IsDigitCode(ByteAt(src.data, c2.pos + |w| - 2))
    ensures Run(src, 32, c2, t2).Ok?
    ensures Run(src, 32, c2, t2).value.kind == 13
    ensures Run(src, 32, c2, t2).value.text == t2 + w[2..]
  {
    AheadStep(src, c2, w, 2, t2);
    var (t3, c3) := AddCh(src, c2, t2).value;
    RunMoves(src, 32, c2, t2);
    RunDigits(src, c3, t3, w, 3);
    TakeOne(t2, w, 2);
  }

  /** `T:` followed by digits is one token of kind 13 holding the whole digit run. */
  lemma TimingToken(src: Source, c: Cursor, digits: string)
    requires Safe(src) && |digits| > 0 && AllDigits(digits)
    requires Ahead(src, c, "T:" + digits, 0)
    requires 0 <= c.pos && !IsDigitCode(ByteAt(src.data, c.pos + 2 + |digits|))
    ensures NextToken(src, c).Ok?
    ensures NextToken(src, c).value.0 == Token(13, c.pos, c.charPos, c.col, c.line, "T:" + digits)
  {
    TimingLex(src, c, digits);
    assert SkipWs(src, c) == Ok(c);
  }

  /** A timing at the cursor, which is not whitespace, is read whole. */
  lemma TimingLex(src: Source, c: Cursor, digits: string)
    requires Safe(src) && |digits| > 0 && AllDigits(digits)
    requires Ahead(src, c, "T:" + digits, 0)
    requires 0 <= c.pos && !IsDigitCode(ByteAt(src.data, c.pos + 2 + |digits|))
    ensures Fits(src, c) && c.ch == 'T' as int
    ensures Lex(src, c).Ok?
    ensures Lex(src, c).value.0 == Token(13, c.pos, c.charPos, c.col, c.line, "T:" + digits)
  {
    var w := "T:" + digits;
    assert w[0] == 'T' && w[1] == ':';
    assert forall j :: 2 <= j < |w| ==> '0' <= w[j] <= '9' by {
      forall j | 2 <= j < |w|
        ensures '0' <= w[j] <= '9'
      {
        assert w[j] == digits[j - 2];
      }
    }
    AheadStep(src, c, w, 0, "");
    var (t1, c1) := AddCh(src, c, "").value;
    assert t1 == [w[0]] && c1.pos == c.pos + 1;
    assert c.ch == 'T' as int;
    assert StartState(c.ch) == 31;
    RunTiming(src, c1, t1, w);
    var s := Run(src, 31, c1, t1).value;
    ConsTail(w);
    assert s.text == w;
    assert Lex(src, c) == Ok((Token(s.kind, c.pos, c.charPos, c.col, c.line, s.text), s.cursor));
  }

  /** A first character that starts no token is a noSym token of that one character. */
  lemma UnknownToken(src: Source, c: Cursor)
    requires Safe(src) && Fits(src, c) && !IsWs(c.ch) && c.ch != EOF && StartState(c.ch) == 0
    ensures NextToken(src, c).Ok?
    ensures NextToken(src, c).value.0 == Token(noSym, c.pos, c.charPos, c.col, c.line, [c.ch as char])
  {
    NextChSafe(src, c);
  }

  /** At the end of the input the token is EOF (kind 0, empty `val`) and the
      cursor stays where it is, so every later token is EOF again. */
  lemma EofFixpoint(src: Source, c: Cursor)
    requires Fits(src, c) && c.ch == EOF
    ensures NextToken(src, c) == Ok((Token(eofSym, c.pos, c.charPos, c.col, c.line, ""), c))
  {
  }

  /** A token's `val` is the input at its `pos`, without whitespace. */
  lemma NextTokenText(src: Source, c: Cursor)
    requires Fits(src, c) && NextToken(src, c).Ok?
    ensures var (t, c') := NextToken(src, c).value;
      && Spelled(src, t)
      && (|t.val| > 0 ==> c'.pos == t.pos + |t.val|)
  {
    LexText(src, SkipWs(src, c).value);
  }

  /** `t.val` is the input at `t.pos`, without whitespace. */
  ghost predicate Spelled(src: Source, t: Token) {
    && (forall i :: 0 <= i < |t.val| ==> !IsWsChar(t.val[i]))
    && (|t.val| > 0 ==> 0 <= t.pos && t.pos + |t.val| <= |src.data|)
    && (forall i :: 0 <= i < |t.val| ==> t.val[i] == src.data[t.pos + i] as char)
  }

  /** The same for the token read after the whitespace. */
  lemma LexText(src: Source, c0: Cursor)
    requires Fits(src, c0) && !IsWs(c0.ch) && Lex(src, c0).Ok?
    ensures var (t, c') := Lex(src, c0).value;
      && Spelled(src, t)
      && (|t.val| > 0 ==> c'.pos == t.pos + |t.val|)
  {
    var (text, c1) := AddCh(src, c0, "").value;
    var s := Run(src, StartState(c0.ch), c1, text).value;
    RunText(src, StartState(c0.ch), c1, text);
    if c0.ch != EOF {
      ExtendsStep(src, c0, "", c1, s);
    }
    ExtendsSpelled(src, c0, s);
    assert Lex(src, c0).value == (Token(s.kind, c0.pos, c0.charPos, c0.col, c0.line, s.text), s.cursor);
  }

  /** Text that grew from nothing at `c` is the input there. */
  lemma ExtendsSpelled(src: Source, c: Cursor, s: Scanned)
    requires Extends(src, c, "", s)
    ensures Spelled(src, Token(s.kind, c.pos, c.charPos, c.col, c.line, s.text))
    ensures |s.text| > 0 ==> s.cursor.pos == c.pos + |s.text|
  {
  }

  /** `toks` are tokens the lexer reads one after another: `toks[i]` from
      the cursor `marks[i]`, which leaves it at `marks[i + 1]`. */
  ghost predicate Chain(src: Source, toks: seq<Token>, marks: seq<Cursor>) {
    && |marks| == |toks| + 1
    && (forall i :: 0 <= i < |marks| ==> Fits(src, marks[i]))
    && (forall i :: 0 <= i < |toks| ==> NextToken(src, marks[i]) == Ok((toks[i], marks[i + 1])))
  }

  /** A token read after the last one extends the chain. */
  lemma ChainSnoc(src: Source, toks: seq<Token>, marks: seq<Cursor>, t: Token, c': Cursor)
    requires Chain(src, toks, marks) && NextToken(src, marks[|toks|]) == Ok((t, c'))
    ensures Chain(src, toks + [t], marks + [c'])
  {
    var toks', marks' := toks + [t], marks + [c'];
    forall i | 0 <= i < |toks'|
      ensures NextToken(src, marks'[i]) == Ok((toks'[i], marks'[i + 1]))
    {
      if i < |toks| {
        assert toks'[i] == toks[i] && marks'[i] == marks[i] && marks'[i + 1] == marks[i + 1];
      }
    }
  }

  /** Scanning the first token leaves a chain from the cursor after it. */
  lemma ChainTail(src: Source, toks: seq<Token>, marks: seq<Cursor>)
    requires Chain(src, toks, marks) && |toks| > 0
    ensures Chain(src, toks[1..], marks[1..])
  {
    var toks', marks' := toks[1..], marks[1..];
    forall i | 0 <= i < |toks'|
      ensures NextToken(src, marks'[i]) == Ok((toks'[i], marks'[i + 1]))
    {
      assert toks'[i] == toks[i + 1] && marks'[i] == marks[i + 1] && marks'[i + 1] == marks[i + 2];
    }
  }

  /** The text of a timing token: `T:` and a run of digits. */
  predicate TimingVal(w: string) {
    |w| >= 3 && w[..2] == "T:" && AllDigits(w[2..])
  }

  /** The digit loop of state 33 keeps the text a timing text and accepts
      with kind 13. */
  lemma {:induction false} RunDigitLoop(src: Source, c: Cursor, text: string)
    requires Fits(src, c) && TimingVal(text) && Run(src, 33, c, text).Ok?
    ensures Run(src, 33, c, text).value.kind == 13 && TimingVal(Run(src, 33, c, text).value.text)
    decreases Remaining(src, c)
  {
    if IsDigitCode(c.ch) {
      var (text', c') := AddCh(src, c, text).value;
      assert text'[..2] == text[..2] && text'[2..] == text[2..] + [c.ch as char];
      RunDigitLoop(src, c', text');
    }
  }

  /** Outside the states 31 to 33 of `T:` and its digits, the automaton
      never accepts with kind 13. */
  lemma {:induction false} RunNotTiming(src: Source, state: int, c: Cursor, text: string)
    requires Fits(src, c) && state != 31 && state != 32 && state != 33 && Run(src, state, c, text).Ok?
    ensures Run(src, state, c, text).value.kind != 13
    decreases Remaining(src, c)
  {
    if state != -1 && state != 0 && FinalKind(state) == 0 {
      var next := Step(state, c.ch);
      if next != 0 {
        var (text', c') := AddCh(src, c, text).value;
        RunNotTiming(src, next, c', text');
      }
    }
  }

  /** From state 32, after `T:`, a kind-13 token has a timing text. */
  lemma RunAfterColon(src: Source, c: Cursor, text: string)
    requires Fits(src, c) && text == "T:" && Run(src, 32, c, text).Ok?
    ensures Run(src, 32, c, text).value.kind == 13 ==> TimingVal(Run(src, 32, c, text).value.text)
  {
    if IsDigitCode(c.ch) {
      var (text', c') := AddCh(src, c, text).value;
      assert text' == "T:" + [c.ch as char];
      RunDigitLoop(src, c', text');
    }
  }

  /** From state 31, after `T`, likewise. */
  lemma RunAfterT(src: Source, c: Cursor, text: string)
    requires Fits(src, c) && text == "T" && Run(src, 31, c, text).Ok?
    ensures Run(src, 31, c, text).value.kind == 13 ==> TimingVal(Run(src, 31, c, text).value.text)
  {
    if c.ch == ':' as int {
      var (text', c') := AddCh(src, c, text).value;
      assert Run(src, 31, c, text) == Run(src, 32, c', text');
      RunAfterColon(src, c', text');
    }
  }

  /** Every token of kind 13 is `T:` followed by one or more digits, so the
      parsers' `Substring(2)` leaves a non-empty digit string. */
  lemma TimingTokenShape(src: Source, c: Cursor)
    requires Fits(src, c) && NextToken(src, c).Ok? && NextToken(src, c).value.0.kind == 13
    ensures TimingVal(NextToken(src, c).value.0.val)
  {
    var c0 := SkipWs(src, c).value;
    var (text, c1) := AddCh(src, c0, "").value;
    var state := StartState(c0.ch);
    assert NextToken(src, c).value.0.kind == Run(src, state, c1, text).value.kind;
    assert NextToken(src, c).value.0.val == Run(src, state, c1, text).value.text;
    if state != 31 {
      RunNotTiming(src, state, c1, text);
    } else {
      RunAfterT(src, c1, text);
    }
  }

  /** Reading a token never moves the cursor back, and a token other than
      EOF consumes input. */
  lemma NextTokenProgress(src: Source, c: Cursor)
    requires Fits(src, c) && NextToken(src, c).Ok?
    ensures Remaining(src, NextToken(src, c).value.1) <= Remaining(src, c)
    ensures NextToken(src, c).value.0.kind != eofSym ==> Remaining(src, NextToken(src, c).value.1) < Remaining(src, c)
  {
  }
}
