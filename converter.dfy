/** `InputToSourceConverter` (src/InputCapture/InputToSourceConverter.cs):
    writes a captured sequence back as source text for the compiler, one
    line per input between SEQUENCE_START and SEQUENCE_END, each through
    `StringBuilder.AppendLine`. The round trip through the scanner and the
    generated parser is proved in `RoundTrip`. */
module Converter {
  import opened Base
  import opened Models
  import opened CodeGen

  const StartLine: string := "SEQUENCE_START"
  const EndLine: string := "SEQUENCE_END"

  /** The line of one input: its command, then ` T:` and the delay only
      when the delay is positive. */
  function SourceLine(input: TimedInput): string {
    var ms := input.millisecondsSincePrevious as int;
    if ms > 0 then input.command + TimingSuffix(ms) else input.command
  }

  /** `$" T:{ms}"`. */
  function TimingSuffix(ms: int): string {
    " T:" + IntToString(ms)
  }

  /** Appending in two steps appends the two parts together. */
  lemma AppendTwo(a: string, b: string, c: string)
    ensures a + b + c == a + (b + c)
  {
  }

  function SourceLines(s: seq<TimedInput>): (r: seq<string>)
    ensures |r| == |s| && forall i :: 0 <= i < |s| ==> r[i] == SourceLine(s[i])
  {
    seq(|s|, i requires 0 <= i < |s| => SourceLine(s[i]))
  }

  /** The text `ConvertToSourceCode(sequence)` returns. */
  function SourceText(s: seq<TimedInput>): (r: string)
    ensures r == "" <==> |s| == 0
  {
    if |s| == 0 then "" else Lines([StartLine] + SourceLines(s) + [EndLine])
  }

  /** One more input adds its line to the text. */
  lemma SourceLinesStep(s: seq<TimedInput>, k: int)
    requires 0 <= k < |s|
    ensures Lines([StartLine] + SourceLines(s[..k + 1])) == Lines([StartLine] + SourceLines(s[..k])) + SourceLine(s[k]) + NewLine
  {
    assert s[..k + 1][..k] == s[..k];
    assert [StartLine] + SourceLines(s[..k + 1]) == ([StartLine] + SourceLines(s[..k])) + [SourceLine(s[k])];
  }

  /** `ConvertToSourceCode(sequence)`: the empty string for an empty
      sequence; otherwise the header line, one line per input in a
      `foreach`, and the closing line. */
  method ConvertToSourceCode(sequence: seq<TimedInput>) returns (text: string)
    ensures text == SourceText(sequence)
  {
    if |sequence| == 0 {
      return "";
    }
    var sb := StartLine + NewLine;
    assert sb == Lines([StartLine] + SourceLines(sequence[..0]));
    for k := 0 to |sequence|
      invariant sb == Lines([StartLine] + SourceLines(sequence[..k]))
    {
      var input := sequence[k];
      ghost var before := sb;
      SourceLinesStep(sequence, k);
      sb := sb + input.command;
      if input.millisecondsSincePrevious > 0 {
        AppendTwo(before, input.command, TimingSuffix(input.millisecondsSincePrevious as int));
        sb := sb + TimingSuffix(input.millisecondsSincePrevious as int);
      }
      sb := sb + NewLine;
    }
    assert sequence[..|sequence|] == sequence;
    text := sb + EndLine + NewLine;
  }

  // ---------------------------------------------------------------------------
  // ConvertToSourceCodeWithComments
  // ---------------------------------------------------------------------------

  /** The four comment lines before SEQUENCE_START; `date` stands for the
      formatted `DateTime.Now`. */
  function CommentHeader(date: string, count: int): seq<string> {
    ["// Secuencia capturada de XInput", "// Fecha: " + date, "// Total inputs: " + IntToString(count), ""]
  }

  /** The line of input `i`, numbered from 1 in a trailing comment. */
  function CommentedLine(input: TimedInput, i: int): string {
    SourceLine(input) + NumberComment(i)
  }

  /** `$"  // Input {i + 1}"`. */
  function NumberComment(i: int): string {
    "  // Input " + IntToString(i + 1)
  }

  function CommentedLines(s: seq<TimedInput>): (r: seq<string>)
    ensures |r| == |s| && forall i :: 0 <= i < |s| ==> r[i] == CommentedLine(s[i], i)
  {
    seq(|s|, i requires 0 <= i < |s| => CommentedLine(s[i], i))
  }

  /** The text `ConvertToSourceCodeWithComments(sequence)` returns. */
  function CommentedText(s: seq<TimedInput>, date: string): (r: string)
    ensures r == "" <==> |s| == 0
  {
    if |s| == 0 then "" else Lines(CommentHeader(date, |s|) + [StartLine] + CommentedLines(s) + [EndLine])
  }

  lemma CommentedLinesStep(h: seq<string>, s: seq<TimedInput>, k: int)
    requires 0 <= k < |s|
    ensures Lines(h + CommentedLines(s[..k + 1])) == Lines(h + CommentedLines(s[..k])) + CommentedLine(s[k], k) + NewLine
  {
    assert s[..k + 1][..k] == s[..k];
    assert h + CommentedLines(s[..k + 1]) == (h + CommentedLines(s[..k])) + [CommentedLine(s[k], k)];
  }

  /** `ConvertToSourceCodeWithComments(sequence)`: the comment header, then
      the lines of `ConvertToSourceCode`, each input numbered in a comment. */
  method ConvertToSourceCodeWithComments(sequence: seq<TimedInput>, date: string) returns (text: string)
    ensures text == CommentedText(sequence, date)
  {
    if |sequence| == 0 {
      return "";
    }
    var header := CommentHeader(date, |sequence|) + [StartLine];
    var sb := Lines(header);
    assert header + CommentedLines(sequence[..0]) == header;
    for i := 0 to |sequence|
      invariant sb == Lines(header + CommentedLines(sequence[..i]))
    {
      var input := sequence[i];
      ghost var before := sb;
      CommentedLinesStep(header, sequence, i);
      sb := sb + input.command;
      if input.millisecondsSincePrevious > 0 {
        AppendTwo(before, input.command, TimingSuffix(input.millisecondsSincePrevious as int));
        sb := sb + TimingSuffix(input.millisecondsSincePrevious as int);
      }
      AppendTwo(before, SourceLine(input), NumberComment(i));
      sb := sb + NumberComment(i);
      sb := sb + NewLine;
    }
    assert sequence[..|sequence|] == sequence;
    text := sb + EndLine + NewLine;
  }

  /** The commented text is the comment header followed by the lines of
      the plain text, each input line carrying a numbering comment. */
  lemma {:induction false} CommentedShape(s: seq<TimedInput>, date: string)
    requires |s| > 0
    ensures CommentedText(s, date) ==
              Lines(CommentHeader(date, |s|)) + Lines([StartLine] + CommentedLines(s) + [EndLine])
    ensures forall i :: 0 <= i < |s| ==> CommentedLines(s)[i] == SourceLines(s)[i] + NumberComment(i)
  {
    var h := CommentHeader(date, |s|);
    var rest := [StartLine] + CommentedLines(s) + [EndLine];
    assert h + [StartLine] + CommentedLines(s) + [EndLine] == h + rest;
    LinesAppend(h, rest);
  }

  /** The commented text starts with a comment: its first character is `/`. */
  lemma {:induction false} CommentedStartsWithSlash(s: seq<TimedInput>, date: string)
    requires |s| > 0
    ensures CommentedText(s, date)[0] == '/'
  {
    var ls := CommentHeader(date, |s|) + [StartLine] + CommentedLines(s) + [EndLine];
    assert ls[0] == "// Secuencia capturada de XInput";
    LinesFirst(ls);
  }

  /** The text of several lines begins with the first character of the
      first line. */
  lemma {:induction false} LinesFirst(ls: seq<string>)
    requires |ls| > 0 && |ls[0]| > 0
    ensures |Lines(ls)| > 0 && Lines(ls)[0] == ls[0][0]
    decreases |ls|
  {
    if |ls| == 1 {
      assert ls[..0] == [];
    } else {
      var init := ls[..|ls| - 1];
      LinesFirst(init);
    }
  }
}
