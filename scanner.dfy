/** The `Scanner` class (Scanner.cs): the cursor fields advance character by
    character, `tval` holds the text of the token being read and grows in
    place, and the peek list keeps tokens read ahead. Every method is proved
    to compute the functions of `Lexer`. */
module Scanning {
  import opened Base
  import opened ScanBuffer
  import opened Lexer

  class Scanner {
    const buffer: Buffer
    var ch: int
    var pos: int
    var charPos: int
    var col: int
    var line: int
    var tval: array<char>
    var tlen: int
    /** The tokens after the last one `Scan` returned that `Peek` has read
        ahead (the linked list behind `tokens`), and how many of them `pt`
        has passed. */
    var peeked: seq<Token>
    var peekCount: nat
    /** Where the lexer stood before each peeked token and after the last:
        `peeked[i]` was read from `marks[i]`, leaving it at `marks[i + 1]`. */
    ghost var marks: seq<Cursor>

    ghost function Repr(): set<object>
      reads this, buffer
    {
      {this, buffer, buffer.buf, tval}
    }

    function Src(): Source {
      Source(buffer.data, buffer.canSeek)
    }

    function Cur(): Cursor
      reads this, buffer
    {
      Cursor(buffer.Pos(), ch, pos, line, col, charPos)
    }

    /** The objects are in shape, whatever an exception left half done. */
    ghost predicate Valid()
      reads this, buffer, buffer.buf, tval
    {
      && buffer.Valid() && !buffer.Broken()
      && tval.Length >= 1 && 0 <= tlen <= tval.Length
      && peekCount <= |peeked|
    }

    /** Between tokens: the cursor is one `NextCh` produced, and the peek list
        holds the tokens the lexer reads one after another from `marks[0]`
        up to the cursor. */
    ghost predicate Ready()
      reads this, buffer, buffer.buf, tval
    {
      && Valid() && Chain(Src(), peeked, marks) && marks[|peeked|] == Cur()
    }

    /** Between tokens with nothing read ahead: the cursor is the one mark. */
    ghost predicate Idle()
      reads this, buffer, buffer.buf, tval
    {
      && Valid() && peeked == [] && peekCount == 0 && marks == [Cur()] && Fits(Src(), Cur())
    }

    lemma ReadyIdle()
      requires Ready() && peeked == []
      ensures Idle()
    {
    }

    lemma IdleReady()
      requires Idle()
      ensures Ready()
    {
    }

    lemma PosNonNegative()
      requires buffer.Valid() && !buffer.Broken()
      ensures 0 <= buffer.Pos()
    {
    }

    /** The constructor's work before `Init`: a buffer over the stream and
        an empty token text. */
    constructor (data: seq<byte>, canSeek: bool, isUserStream: bool)
      requires |data| < INT_MAX
      ensures Valid() && fresh(Repr())
      ensures Src() == Source(data, canSeek) && buffer.Pos() == StartPos(Src())
      ensures tval.Length == 128 && ch == 0
    {
      buffer := new Buffer(data, canSeek, isUserStream);
      ch, pos, charPos, col, line := 0, 0, 0, 0, 0;
      tval := new char[128];
      tlen := 0;
      peeked := [];
      peekCount := 0;
    }

    /** `new Scanner(stream)`: builds the scanner and runs `Init`, whose
        exception (a bad byte order mark) escapes the constructor. */
    static method Open(data: seq<byte>, canSeek: bool, isUserStream: bool) returns (r: Result<Scanner>)
      requires |data| < INT_MAX
      ensures r.Ok? <==> Lexer.Init(Source(data, canSeek)).Ok?
      ensures r.Throw? ==> r.message == Lexer.Init(Source(data, canSeek)).message
      ensures r.Ok? ==> fresh(r.value.Repr()) && r.value.Ready() && r.value.peeked == []
      ensures r.Ok? ==> r.value.Src() == Source(data, canSeek)
      ensures r.Ok? ==> r.value.Cur() == Lexer.Init(Source(data, canSeek)).value
    {
      var s := new Scanner(data, canSeek, isUserStream);
      var o := s.Init();
      if o.Exception? {
        return Throw(o.message);
      }
      r := Ok(s);
    }

    /** `Init()`: line 1, column 0, the first character read, and a byte
        order mark skipped or rejected. */
    method Init() returns (o: Outcome)
      requires Valid() && buffer.Pos() == StartPos(Src()) && ch == 0
      modifies this, buffer, buffer.buf
      ensures Valid() && tval == old(tval)
      ensures fresh(buffer.buf) || buffer.buf == old(buffer.buf)
      ensures o.Normal? <==> Lexer.Init(Src()).Ok?
      ensures o.Exception? ==> o.message == Lexer.Init(Src()).message
      ensures o.Normal? ==> Ready() && Cur() == Lexer.Init(Src()).value && peeked == [] && peekCount == 0
    {
      Place(ch, -1, 1, 0, -1);
      peeked, peekCount := [], 0;
      assert Cur() == Cursor(StartPos(Src()), 0, -1, 1, 0, -1);
      PosNonNegative();
      o := NextCh();
      if o.Normal? {
        o := SkipBom();
        if o.Normal? {
          Anchor();
        }
      }
    }

    /** The `if (ch == 0xEF)` block of `Init()`. */
    method SkipBom() returns (o: Outcome)
      requires Valid() && Fits(Src(), Cur())
      modifies this, buffer, buffer.buf
      ensures Valid() && tval == old(tval) && peeked == old(peeked) && peekCount == old(peekCount)
      ensures fresh(buffer.buf) || buffer.buf == old(buffer.buf)
      ensures o.Normal? <==> Lexer.SkipBom(Src(), old(Cur())).Ok?
      ensures o.Exception? ==> o.message == Lexer.SkipBom(Src(), old(Cur())).message
      ensures o.Normal? ==> Cur() == Lexer.SkipBom(Src(), old(Cur())).value
    {
      o := Normal;
      if ch == 0xEF {
        PosNonNegative();
        o := NextCh();
        if o.Normal? {
          var ch1 := ch;
          PosNonNegative();
          o := NextCh();
          if o.Normal? {
            var ch2 := ch;
            ghost var c3 := Cur();
            if ch1 != 0xBB || ch2 != 0xBF {
              o := Exception(BomMessage(ch1, ch2));
            } else {
              Place(ch, pos, line, 0, -1);
              assert Cur() == c3.(col := 0, charPos := -1);
              PosNonNegative();
              o := NextCh();
            }
          }
        }
      }
    }

    /** Stores the character and the counters of the cursor in the fields
        (the assignments the C# methods make one by one). */
    method Place(ch': int, pos': int, line': int, col': int, charPos': int)
      requires Valid()
      modifies this
      ensures Valid() && ch == ch' && pos == pos' && line == line' && col == col' && charPos == charPos'
      ensures tval == old(tval) && tlen == old(tlen)
      ensures peeked == old(peeked) && peekCount == old(peekCount) && marks == old(marks)
    {
      ch, pos, line, col, charPos := ch', pos', line', col', charPos';
    }

    /** Marks the cursor as the place the peek list starts from. */
    ghost method Anchor()
      requires Valid() && Fits(Src(), Cur()) && peeked == []
      modifies this
      ensures Ready() && marks == [Cur()]
      ensures ch == old(ch) && pos == old(pos) && line == old(line) && col == old(col) && charPos == old(charPos)
      ensures tval == old(tval) && tlen == old(tlen) && peeked == old(peeked) && peekCount == old(peekCount)
    {
      marks := [Cur()];
    }

    /** `ch = buffer.Read()`, then `if (ch == '\r' && buffer.Peek() != '\n') ch = EOL`. */
    method ReadCh() returns (r: Result<(int, int)>)
      requires Valid() && 0 <= buffer.Pos()
      modifies buffer, buffer.buf
      ensures Valid() && (fresh(buffer.buf) || buffer.buf == old(buffer.buf))
      ensures r == Lexer.ReadCh(Src(), old(buffer.Pos()))
      ensures r.Ok? ==> buffer.Pos() == r.value.1
    {
      ghost var q := buffer.Pos();
      var b := buffer.Read();
      var c := b.value;
      assert c == ByteAt(Src().data, q);
      if c == CR {
        r := AfterCr();
      } else {
        r := Ok((c, buffer.Pos()));
      }
    }

    /** The `buffer.Peek() != '\n'` test after a CR that was just read. */
    method AfterCr() returns (r: Result<(int, int)>)
      requires Valid() && 1 <= buffer.Pos() && ByteAt(Src().data, buffer.Pos() - 1) == CR
      modifies buffer, buffer.buf
      ensures Valid() && (fresh(buffer.buf) || buffer.buf == old(buffer.buf))
      ensures r == Lexer.ReadCh(Src(), old(buffer.Pos()) - 1)
      ensures r.Ok? ==> buffer.Pos() == r.value.1
    {
      ghost var src, q := Src(), buffer.Pos();
      var p := buffer.Peek();
      if p.Throw? {
        assert Lexer.ReadCh(src, q - 1) == Throw(p.message);
        return Throw(p.message);
      }
      r := Ok((if p.value != EOL then EOL else CR, buffer.Pos()));
    }

    /** `NextCh()`, proved to be `Lexer.NextCh` on the cursor fields. */
    method NextCh() returns (o: Outcome)
      requires Valid() && 0 <= buffer.Pos()
      modifies this, buffer, buffer.buf
      ensures Valid() && tval == old(tval) && tlen == old(tlen)
      ensures peeked == old(peeked) && peekCount == old(peekCount) && marks == old(marks)
      ensures fresh(buffer.buf) || buffer.buf == old(buffer.buf)
      ensures o.Normal? <==> Lexer.NextCh(Src(), old(Cur())).Ok?
      ensures o.Exception? ==> o.message == Lexer.NextCh(Src(), old(Cur())).message
      ensures o.Normal? ==> Cur() == Lexer.NextCh(Src(), old(Cur())).value
    {
      var p0 := buffer.Pos();
      var r := ReadCh();
      if r.Throw? {
        Place(CR, p0, line, col + 1, charPos + 1);
        return Exception(r.message);
      }
      var c := r.value.0;
      if c == EOL {
        Place(c, p0, line + 1, 0, charPos + 1);
      } else {
        Place(c, p0, line, col + 1, charPos + 1);
      }
      o := Normal;
    }

    /** `AddCh()`: `tval` doubles when full, keeping its contents; the current
        character is appended and the next one read, unless it is EOF. */
    method AddCh() returns (o: Outcome)
      requires Valid() && Fits(Src(), Cur())
      modifies this, buffer, buffer.buf, tval
      ensures Valid()
      ensures peeked == old(peeked) && peekCount == old(peekCount) && marks == old(marks)
      ensures fresh(buffer.buf) || buffer.buf == old(buffer.buf)
      ensures old(tlen) >= old(tval.Length) ==> fresh(tval) && tval.Length == 2 * old(tval.Length)
      ensures old(tlen) < old(tval.Length) ==> tval == old(tval)
      ensures tval[..old(tlen)] == old(tval[..tlen])
      ensures o.Normal? <==> Lexer.AddCh(Src(), old(Cur()), old(tval[..tlen])).Ok?
      ensures o.Exception? ==> o.message == Lexer.AddCh(Src(), old(Cur()), old(tval[..tlen])).message
      ensures o.Normal? ==> (tval[..tlen], Cur()) == Lexer.AddCh(Src(), old(Cur()), old(tval[..tlen])).value
    {
      ghost var text, c := tval[..tlen], Cur();
      if tlen >= tval.Length {
        Grow();
      }
      if ch != EOF {
        Put(ch as char);
        PosNonNegative();
        o := NextCh();
      } else {
        o := Normal;
      }
    }

    /** `tval` doubles its length, keeping its contents (`Array.Copy`). */
    method Grow()
      requires Valid()
      modifies this
      ensures Valid() && fresh(tval) && tval.Length == 2 * old(tval.Length)
      ensures tval[..tlen] == old(tval[..tlen]) && tlen == old(tlen) && Cur() == old(Cur())
      ensures peeked == old(peeked) && peekCount == old(peekCount) && marks == old(marks)
    {
      var newBuf := new char[2 * tval.Length];
      forall i | 0 <= i < tval.Length {
        newBuf[i] := tval[i];
      }
      tval := newBuf;
    }

    /** `tval[tlen++] = x`. */
    method Put(x: char)
      requires Valid() && tlen < tval.Length
      modifies this, tval
      ensures Valid() && tval == old(tval) && tval[..tlen] == old(tval[..tlen]) + [x] && Cur() == old(Cur())
      ensures peeked == old(peeked) && peekCount == old(peekCount) && marks == old(marks)
    {
      tval[tlen] := x;
      tlen := tlen + 1;
    }

    /** `NextToken()`: the whitespace loop, then the token itself; proved
        to be `Lexer.NextToken`. */
    method NextToken() returns (r: Result<Token>)
      requires Valid() && Fits(Src(), Cur())
      modifies this, buffer, buffer.buf, tval
      ensures Valid()
      ensures peeked == old(peeked) && peekCount == old(peekCount) && marks == old(marks)
      ensures fresh(buffer.buf) || buffer.buf == old(buffer.buf)
      ensures fresh(tval) || tval == old(tval)
      ensures r.Ok? <==> Lexer.NextToken(Src(), old(Cur())).Ok?
      ensures r.Throw? ==> r.message == Lexer.NextToken(Src(), old(Cur())).message
      ensures r.Ok? ==> (r.value, Cur()) == Lexer.NextToken(Src(), old(Cur())).value
    {
      var o := SkipWhitespace();
      if o.Exception? {
        return Throw(o.message);
      }
      r := ScanToken();
    }

    /** The whitespace loop at the head of `NextToken()`: blanks, tabs,
        line feeds and carriage returns are read past; proved to be
        `SkipWs`. */
    method SkipWhitespace() returns (o: Outcome)
      requires Valid() && Fits(Src(), Cur())
      modifies this, buffer, buffer.buf
      ensures Valid() && tval == old(tval) && tlen == old(tlen)
      ensures peeked == old(peeked) && peekCount == old(peekCount) && marks == old(marks)
      ensures fresh(buffer.buf) || buffer.buf == old(buffer.buf)
      ensures o.Normal? <==> SkipWs(Src(), old(Cur())).Ok?
      ensures o.Exception? ==> o.message == SkipWs(Src(), old(Cur())).message
      ensures o.Normal? ==> Cur() == SkipWs(Src(), old(Cur())).value
    {
      ghost var skipped := SkipWs(Src(), Cur());
      while ch == ' ' as int || (ch >= 9 && ch <= 10) || ch == 13
        invariant Valid() && Fits(Src(), Cur())
        invariant peeked == old(peeked) && peekCount == old(peekCount) && marks == old(marks)
        invariant fresh(buffer.buf) || buffer.buf == old(buffer.buf)
        invariant tval == old(tval) && tlen == old(tlen)
        invariant SkipWs(Src(), Cur()) == skipped
        decreases Remaining(Src(), Cur())
      {
        PosNonNegative();
        o := NextCh();
        if o.Exception? {
          return;
        }
      }
      o := Normal;
    }

    /** The rest of `NextToken()`: the token's start noted, its first
        character added and the automaton run; proved to be `Lex`. */
    method ScanToken() returns (r: Result<Token>)
      requires Valid() && Fits(Src(), Cur())
      modifies this, buffer, buffer.buf, tval
      ensures Valid()
      ensures peeked == old(peeked) && peekCount == old(peekCount) && marks == old(marks)
      ensures fresh(buffer.buf) || buffer.buf == old(buffer.buf)
      ensures fresh(tval) || tval == old(tval)
      ensures r.Ok? <==> Lex(Src(), old(Cur())).Ok?
      ensures r.Throw? ==> r.message == Lex(Src(), old(Cur())).message
      ensures r.Ok? ==> (r.value, Cur()) == Lex(Src(), old(Cur())).value
    {
      var tokPos, tokCol, tokLine, tokCharPos := pos, col, line, charPos;
      var state := StartState(ch);
      tlen := 0;
      assert tval[..tlen] == "";
      var o := AddCh();
      if o.Exception? {
        return Throw(o.message);
      }
      var kind :- Automaton(state);
      r := Ok(Token(kind, tokPos, tokCharPos, tokCol, tokLine, tval[..tlen]));
    }

    /** The `switch (state)` of `NextToken()`, its `goto case` jumps written
        as a loop over `state`; proved to be `Lexer.Run`. Returns the token
        kind, the text being left in `tval`. */
    method Automaton(start: int) returns (r: Result<int>)
      requires Valid() && Fits(Src(), Cur())
      modifies this, buffer, buffer.buf, tval
      ensures Valid()
      ensures peeked == old(peeked) && peekCount == old(peekCount) && marks == old(marks)
      ensures fresh(buffer.buf) || buffer.buf == old(buffer.buf)
      ensures fresh(tval) || tval == old(tval)
      ensures r.Ok? <==> Run(Src(), start, old(Cur()), old(tval[..tlen])).Ok?
      ensures r.Throw? ==> r.message == Run(Src(), start, old(Cur()), old(tval[..tlen])).message
      ensures r.Ok? ==> Scanned(r.value, tval[..tlen], Cur()) == Run(Src(), start, old(Cur()), old(tval[..tlen])).value
    {
      var state := start;
      var recKind := noSym;
      var recEnd := pos;
      ghost var expected := Run(Src(), state, Cur(), tval[..tlen]);
      var kind := eofSym;
      var done := false;
      while !done
        invariant Valid() && Fits(Src(), Cur())
        invariant peeked == old(peeked) && peekCount == old(peekCount) && marks == old(marks)
        invariant fresh(buffer.buf) || buffer.buf == old(buffer.buf)
        invariant fresh(tval) || tval == old(tval)
        invariant recKind == noSym || (recKind == 13 && state == 33)
        invariant !done ==> Run(Src(), state, Cur(), tval[..tlen]) == expected
        invariant done ==> expected == Ok(Scanned(kind, tval[..tlen], Cur()))
        decreases Remaining(Src(), Cur()), if done then 0 else if state == 0 then 1 else 2
      {
        if state == -1 {
          kind := eofSym;
          done := true;
        } else if state == 0 {
          if recKind != noSym {
            // `SetScannerBehindT()`: recKind is set only in state 33, which
            // never goes to case 0
            assert false;
          }
          kind := recKind;
          done := true;
        } else if FinalKind(state) != 0 {
          kind := FinalKind(state);
          done := true;
        } else if state == 33 && !IsDigitCode(ch) {
          recEnd, recKind := pos, 13;
          kind := 13;
          done := true;
        } else {
          // case 33 on a digit adds it and stays; the other cases follow `Step`
          if state == 33 {
            recEnd, recKind := pos, 13;
          }
          var next := if state == 33 then 33 else Step(state, ch);
          if next == 0 {
            state := 0;
          } else {
            var o := AddCh();
            if o.Exception? {
              return Throw(o.message);
            }
            state := next;
          }
        }
      }
      r := Ok(kind);
    }

    /** `Scan()`: the first token read ahead, or else a new one. */
    method Scan() returns (r: Result<Token>)
      requires Ready()
      modifies Repr()
      ensures Valid()
      ensures fresh(buffer.buf) || buffer.buf == old(buffer.buf)
      ensures fresh(tval) || tval == old(tval)
      ensures r.Ok? <==> Lexer.NextToken(Src(), old(marks[0])).Ok?
      ensures r.Throw? ==> r.message == Lexer.NextToken(Src(), old(marks[0])).message
      ensures r.Ok? ==> Ready() && (r.value, marks[0]) == Lexer.NextToken(Src(), old(marks[0])).value
      ensures r.Ok? ==> peekCount == 0 && peeked == if old(peeked) == [] then [] else old(peeked)[1..]
    {
      if peeked == [] {
        r := NextToken();
        if r.Ok? {
          Anchor();
        }
      } else {
        assert Lexer.NextToken(Src(), marks[0]) == Ok((peeked[0], marks[1]));
        r := Ok(peeked[0]);
        Drop();
      }
    }

    /** `Scan()` with nothing peeked, as the parser calls it: the next token
        from the cursor, leaving nothing peeked. */
    method ScanIdle() returns (r: Result<Token>)
      requires Idle()
      modifies Repr()
      ensures fresh(buffer.buf) || buffer.buf == old(buffer.buf)
      ensures fresh(tval) || tval == old(tval)
      ensures r.Throw? <==> Lexer.NextToken(Src(), old(Cur())).Throw?
      ensures r.Throw? ==> r.message == Lexer.NextToken(Src(), old(Cur())).message
      ensures r.Ok? ==> Idle() && (r.value, Cur()) == Lexer.NextToken(Src(), old(Cur())).value
    {
      IdleReady();
      r := Scan();
      if r.Ok? {
        ReadyIdle();
      }
    }

    /** `pt = tokens = tokens.next`: the first peeked token becomes the last
        scanned one, and peeking restarts after it. */
    method Drop()
      requires Ready() && peeked != []
      modifies this
      ensures Ready() && peeked == old(peeked)[1..] && marks == old(marks)[1..] && peekCount == 0
      ensures Cur() == old(Cur()) && tval == old(tval) && tlen == old(tlen)
    {
      ChainTail(Src(), peeked, marks);
      peeked, peekCount, marks := peeked[1..], 0, marks[1..];
    }

    /** `Peek()`: the next token after those already peeked, read ahead when
        needed; `Scan` will still return them in order. The C# do-while repeats
        only for kinds above maxT, which the automaton never yields. */
    method Peek() returns (r: Result<Token>)
      requires Ready()
      modifies Repr()
      ensures Valid() && old(marks) <= marks
      ensures fresh(buffer.buf) || buffer.buf == old(buffer.buf)
      ensures fresh(tval) || tval == old(tval)
      ensures old(peekCount) < old(|peeked|) ==> r == Ok(old(peeked)[old(peekCount)]) && peeked == old(peeked)
      ensures old(peekCount) == old(|peeked|) ==>
                && (r.Ok? <==> Lexer.NextToken(Src(), old(Cur())).Ok?)
                && (r.Throw? ==> r.message == Lexer.NextToken(Src(), old(Cur())).message)
                && (r.Ok? ==> peeked == old(peeked) + [r.value])
      ensures r.Ok? ==> Ready() && peekCount == old(peekCount) + 1 && r.value == peeked[peekCount - 1]
    {
      if peekCount == |peeked| {
        r := NextToken();
        if r.Throw? {
          return;
        }
        ChainSnoc(Src(), peeked, marks, r.value, Cur());
        Append(r.value);
      } else {
        r := Ok(peeked[peekCount]);
        peekCount := peekCount + 1;
      }
    }

    /** `pt = pt.next = t`: the token joins the peek list and `pt` moves onto it. */
    method Append(t: Token)
      requires Valid() && peekCount == |peeked| && |marks| == |peeked| + 1
      modifies this
      ensures Valid() && peeked == old(peeked) + [t] && peekCount == old(peekCount) + 1
      ensures marks == old(marks) + [Cur()]
      ensures Cur() == old(Cur()) && tval == old(tval) && tlen == old(tlen)
    {
      peeked := peeked + [t];
      peekCount := peekCount + 1;
      marks := marks + [Cur()];
    }

    /** `ResetPeek()`: peeking starts again after the last scanned token. */
    method ResetPeek()
      modifies this
      ensures peekCount == 0 && peeked == old(peeked) && marks == old(marks)
      ensures ch == old(ch) && pos == old(pos) && line == old(line) && col == old(col)
      ensures charPos == old(charPos) && tval == old(tval) && tlen == old(tlen)
    {
      peekCount := 0;
    }
  }
}
