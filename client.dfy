/** The decision logic of the web client (CyraxCompiler.jsx): its own move
    catalog with prefix feedback, the source text it sends to the
    compiler, the bounded log and the capture of one input. Rendering,
    sound, gamepad polling and the network call are not modelled. */
module Client {
  import opened Base
  import Catalog

  // ---------------------------------------------------------------------------
  // The client catalog and prefix matching
  // ---------------------------------------------------------------------------

  /** An entry of `cyraxMoves`, without its colour, animation and duration. */
  datatype ClientMove = ClientMove(name: string, kind: string, sequence: seq<string>)

  /** `Object.values(cyraxMoves)`, in declaration order. Unlike the compiler's
      catalog it has FRIENDSHIP, and an `error` entry with no sequence. */
  const ClientMoves: seq<ClientMove> := [
    ClientMove("SELF DESTRUCT", "FATALITY", ["DOWN", "DOWN", "UP", "DOWN", "HP"]),
    ClientMove("HELICOPTER", "FATALITY", ["DOWN", "DOWN", "FORWARD", "UP", "RUN"]),
    ClientMove("CYRAX", "BRUTALITY", ["HP", "LK", "HK", "HK", "LP", "LP", "HP", "LP", "LK", "HK", "LK"]),
    ClientMove("CYRAX", "FRIENDSHIP", ["RUN", "RUN", "RUN", "UP"]),
    ClientMove("ERROR", "COMPILATION FAILED", [])]

  /** `isValidPrefix(commands, target)`: shorter than the target and equal to
      it position by position. It is the compiler catalog's strict prefix
      relation, the empty list included. */
  function IsValidPrefix(commands: seq<string>, target: seq<string>): (r: bool)
    ensures r <==> Catalog.StrictPrefixOf(commands, target)
  {
    |commands| < |target| && forall i :: 0 <= i < |commands| ==> commands[i] == target[i]
  }

  /** The client accepts prefixes the compiler does not: the empty list,
      which the compiler's `IsValidPrefix` refuses, and the start of
      FRIENDSHIP, which the compiler's catalog lacks. The `error` entry is
      never a prefix target. */
  lemma PrefixesDiffer()
    ensures IsValidPrefix([], ClientMoves[0].sequence) && !Catalog.IsValidPrefix([])
    ensures IsValidPrefix(["RUN"], ClientMoves[3].sequence) && !Catalog.IsValidPrefix(["RUN"])
    ensures forall c :: !IsValidPrefix(c, ClientMoves[4].sequence)
  {
    var run := ["RUN"];
    forall i | 0 <= i < |Catalog.AllMoves|
      ensures !Catalog.StrictPrefixOf(run, Catalog.AllMoves[i].sequence)
    {
      assert Catalog.AllMoves[i].sequence[0] != "RUN";
      assert Catalog.AllMoves[i].sequence[..1] != run;
    }
  }

  /** The first entry, from `from` on in declaration order, that `commands`
      prefixes; `|ClientMoves|` when there is none. */
  function FirstPrefixedFrom(commands: seq<string>, from: nat): (k: nat)
    requires from <= |ClientMoves|
    ensures from <= k <= |ClientMoves|
    ensures k < |ClientMoves| ==> IsValidPrefix(commands, ClientMoves[k].sequence)
    ensures forall j :: from <= j < k ==> !IsValidPrefix(commands, ClientMoves[j].sequence)
    decreases |ClientMoves| - from
  {
    if from == |ClientMoves| then from
    else if IsValidPrefix(commands, ClientMoves[from].sequence) then from
    else FirstPrefixedFrom(commands, from + 1)
  }

  function FirstPrefixed(commands: seq<string>): (k: nat)
    ensures k <= |ClientMoves|
  {
    FirstPrefixedFrom(commands, 0)
  }

  /** `isValidPrefixForAnyMove(commands)`: a loop over the catalog that
      returns at the first entry the commands prefix. */
  method IsValidPrefixForAnyMove(commands: seq<string>) returns (r: bool)
    ensures r <==> exists i :: 0 <= i < |ClientMoves| && IsValidPrefix(commands, ClientMoves[i].sequence)
  {
    for i := 0 to |ClientMoves|
      invariant forall j :: 0 <= j < i ==> !IsValidPrefix(commands, ClientMoves[j].sequence)
    {
      if IsValidPrefix(commands, ClientMoves[i].sequence) {
        return true;
      }
    }
    return false;
  }

  /** The notification `checkSequencePrefix` raises, without its wording. */
  datatype Feedback =
    | Progress(name: string, done: nat, total: nat)
    | Unrecognised
    | Silent

  /** What `checkSequencePrefix(sequence)` raises for these commands: the
      progress on the first entry they prefix, from the third command on;
      otherwise a warning from the fourth command on. */
  function PrefixFeedback(commands: seq<string>): Feedback {
    var k := FirstPrefixed(commands);
    if k < |ClientMoves| then
      if |commands| >= 3 then Progress(ClientMoves[k].name, |commands|, |ClientMoves[k].sequence|) else Silent
    else if |commands| >= 4 then Unrecognised
    else Silent
  }

  /** Progress is reported exactly when three commands or more prefix some
      entry, and then for the first such entry, counting fewer commands
      than it needs; the warning comes exactly when four commands or more
      prefix none. The `error` entry is never the one reported. */
  lemma {:induction false} FeedbackMeaning(commands: seq<string>)
    ensures var f := PrefixFeedback(commands);
      var prefixed := exists i :: 0 <= i < |ClientMoves| && IsValidPrefix(commands, ClientMoves[i].sequence);
      && (f.Progress? <==> |commands| >= 3 && prefixed)
      && (f.Unrecognised? <==> |commands| >= 4 && !prefixed)
      && (f.Progress? ==>
            exists k :: 0 <= k < |ClientMoves| - 1 && IsValidPrefix(commands, ClientMoves[k].sequence)
              && (forall j :: 0 <= j < k ==> !IsValidPrefix(commands, ClientMoves[j].sequence))
              && f == Progress(ClientMoves[k].name, |commands|, |ClientMoves[k].sequence|)
              && f.done < f.total)
  {
    var k := FirstPrefixed(commands);
    if k < |ClientMoves| {
      assert k < |ClientMoves| - 1;
    }
  }

  /** `checkSequencePrefix(sequence)` on the commands of the sequence: the
      loop over the catalog stops at the first entry they prefix; past the
      loop, the second look through the catalog always finds nothing. */
  method CheckSequencePrefix(commands: seq<string>) returns (f: Feedback)
    ensures f == PrefixFeedback(commands)
  {
    for i := 0 to |ClientMoves|
      invariant forall j :: 0 <= j < i ==> !IsValidPrefix(commands, ClientMoves[j].sequence)
    {
      var move := ClientMoves[i];
      if IsValidPrefix(commands, move.sequence) {
        assert FirstPrefixedFrom(commands, 0) == i by {
          FirstIs(commands, 0, i);
        }
        if |commands| >= 3 {
          return Progress(move.name, |commands|, |move.sequence|);
        }
        return Silent;
      }
    }
    FirstIs(commands, 0, |ClientMoves|);
    var any := IsValidPrefixForAnyMove(commands);
    if |commands| >= 4 && !any {
      return Unrecognised;
    }
    return Silent;
  }

  /** The search from `from` stops at `k` when no entry before `k` is
      prefixed and `k` is, or is the end. */
  lemma {:induction false} FirstIs(commands: seq<string>, from: nat, k: nat)
    requires from <= k <= |ClientMoves|
    requires forall j :: from <= j < k ==> !IsValidPrefix(commands, ClientMoves[j].sequence)
    requires k < |ClientMoves| ==> IsValidPrefix(commands, ClientMoves[k].sequence)
    ensures FirstPrefixedFrom(commands, from) == k
    decreases k - from
  {
    if from < k {
      FirstIs(commands, from + 1, k);
    }
  }

  // ---------------------------------------------------------------------------
  // The source text
  // ---------------------------------------------------------------------------

  /** An input as the client records it; times are `Date.now()` readings. */
  datatype ClientInput = ClientInput(command: string, timestamp: int, millisecondsSincePrevious: int)

  function Commands(s: seq<ClientInput>): (r: seq<string>)
    ensures |r| == |s| && forall i :: 0 <= i < |s| ==> r[i] == s[i].command
  {
    seq(|s|, i requires 0 <= i < |s| => s[i].command)
  }

  /** The line of input `index`: the first one always shows `T:0`, the
      others their delay, 0 included. */
  function ClientLine(input: ClientInput, index: int): string {
    input.command + " T:" + (if index == 0 then "0" else IntToString(input.millisecondsSincePrevious))
  }

  function ClientLines(s: seq<ClientInput>): (r: seq<string>)
    ensures |r| == |s| && forall i :: 0 <= i < |s| ==> r[i] == ClientLine(s[i], i)
  {
    seq(|s|, i requires 0 <= i < |s| => ClientLine(s[i], i))
  }

  /** `Array.prototype.join(sep)`. */
  function Join(ls: seq<string>, sep: string): string {
    if |ls| == 0 then "" else if |ls| == 1 then ls[0] else ls[0] + sep + Join(ls[1..], sep)
  }

  /** `String.prototype.split('\n')`: the pieces between line feeds, one
      more than there are line feeds. */
  function Split(t: string): (r: seq<string>)
    ensures |r| > 0
  {
    if |t| == 0 then [""]
    else
      var rest := Split(t[1..]);
      if t[0] == '\n' then [""] + rest else [[t[0]] + rest[0]] + rest[1..]
  }

  /** `generateSourceCode(sequence)`: nothing for an empty sequence;
      otherwise SEQUENCE_START, the input lines and SEQUENCE_END joined by
      line feeds, with no line feed at the end. */
  function GenerateSourceCode(s: seq<ClientInput>): string {
    if |s| == 0 then "" else "SEQUENCE_START\n" + Join(ClientLines(s), "\n") + "\nSEQUENCE_END"
  }

  predicate NoLineFeed(t: string) {
    '\n' !in t
  }

  /** A piece without a line feed splits into itself. */
  lemma {:induction false} SplitPlain(l: string)
    requires NoLineFeed(l)
    ensures Split(l) == [l]
    decreases |l|
  {
    if |l| > 0 {
      SplitPlain(l[1..]);
      assert [l[0]] + l[1..] == l;
    }
  }

  /** Splitting a piece, a line feed and more gives the piece, then the
      pieces of the rest. */
  lemma {:induction false} SplitCons(l: string, t: string)
    requires NoLineFeed(l)
    ensures Split(l + "\n" + t) == [l] + Split(t)
    decreases |l|
  {
    if |l| == 0 {
      assert l + "\n" + t == "\n" + t;
      assert ("\n" + t)[1..] == t;
    } else {
      var u := l + "\n" + t;
      assert u[0] == l[0];
      assert u[1..] == l[1..] + "\n" + t;
      SplitCons(l[1..], t);
      assert [l[0]] + l[1..] == l;
    }
  }

  /** `split` undoes `join` on lines without line feeds. */
  lemma {:induction false} SplitJoin(ls: seq<string>)
    requires |ls| > 0 && forall i :: 0 <= i < |ls| ==> NoLineFeed(ls[i])
    ensures Split(Join(ls, "\n")) == ls
    decreases |ls|
  {
    if |ls| == 1 {
      SplitPlain(ls[0]);
    } else {
      SplitJoin(ls[1..]);
      SplitCons(ls[0], Join(ls[1..], "\n"));
      assert [ls[0]] + ls[1..] == ls;
    }
  }

  /** Joining a first piece onto the rest. */
  lemma JoinCons(l: string, ls: seq<string>)
    requires |ls| > 0
    ensures Join([l] + ls, "\n") == l + "\n" + Join(ls, "\n")
  {
    assert ([l] + ls)[1..] == ls;
  }

  /** Joining a list and then a last piece. */
  lemma {:induction false} JoinSnoc(ls: seq<string>, l: string)
    requires |ls| > 0
    ensures Join(ls + [l], "\n") == Join(ls, "\n") + "\n" + l
    decreases |ls|
  {
    if |ls| == 1 {
      assert ls + [l] == [ls[0]] + [l];
    } else {
      assert (ls + [l])[1..] == ls[1..] + [l];
      JoinSnoc(ls[1..], l);
    }
  }

  lemma {:induction false} LinePlain(input: ClientInput, index: int)
    requires NoLineFeed(input.command)
    ensures NoLineFeed(ClientLine(input, index))
  {
    var n := input.millisecondsSincePrevious;
    var d := NatToString(if n < 0 then -n else n);
    assert forall i :: 0 <= i < |d| ==> '0' <= d[i] <= '9';
    assert NoLineFeed(d);
  }

  /** The lines of the text: the header, one per input, the closing one. */
  function TextLines(s: seq<ClientInput>): seq<string> {
    ["SEQUENCE_START"] + ClientLines(s) + ["SEQUENCE_END"]
  }

  lemma {:induction false} GeneratedJoin(s: seq<ClientInput>)
    requires |s| > 0
    ensures GenerateSourceCode(s) == Join(TextLines(s), "\n")
  {
    var body := ClientLines(s);
    JoinCons("SEQUENCE_START", body);
    JoinSnoc(["SEQUENCE_START"] + body, "SEQUENCE_END");
  }

  lemma {:induction false} TextLinesPlain(s: seq<ClientInput>)
    requires forall i :: 0 <= i < |s| ==> NoLineFeed(s[i].command)
    ensures forall i :: 0 <= i < |TextLines(s)| ==> NoLineFeed(TextLines(s)[i])
  {
    var ls := TextLines(s);
    forall i | 0 <= i < |ls|
      ensures NoLineFeed(ls[i])
    {
      if 1 <= i <= |s| {
        LinePlain(s[i - 1], i - 1);
        assert ls[i] == ClientLine(s[i - 1], i - 1);
      }
    }
  }

  /** The text is the header line, one line per input and the closing line,
      joined by line feeds; when no command holds a line feed, splitting it
      at line feeds gives back exactly those `|s| + 2` lines. */
  lemma {:induction false} GeneratedLines(s: seq<ClientInput>)
    requires |s| > 0 && forall i :: 0 <= i < |s| ==> NoLineFeed(s[i].command)
    ensures GenerateSourceCode(s) == Join(TextLines(s), "\n")
    ensures Split(GenerateSourceCode(s)) == TextLines(s)
    ensures |Split(GenerateSourceCode(s))| == |s| + 2
  {
    GeneratedJoin(s);
    TextLinesPlain(s);
    SplitJoin(TextLines(s));
  }

  // ---------------------------------------------------------------------------
  // The component state
  // ---------------------------------------------------------------------------

  /** `compilationStatus`. */
  datatype Status = Idle | Compiling | Success | Error

  /** An entry of `logs`; `time` is the `toLocaleTimeString()` reading. */
  datatype LogEntry = LogEntry(message: string, kind: string, time: string)

  const MaxLogs: nat := 15

  /** `[entry, ...prev].slice(0, 15)`: the new entry first, then the newest
      of the previous ones, at most fifteen in all. */
  function PushLog(entry: LogEntry, logs: seq<LogEntry>): (r: seq<LogEntry>)
    ensures |r| == if |logs| < MaxLogs then |logs| + 1 else MaxLogs
    ensures r[0] == entry && r[1..] == logs[..|r| - 1]
  {
    var all := [entry] + logs;
    if |all| <= MaxLogs then all else all[..MaxLogs]
  }

  /** The delay `addInput` records: the time since the previous input, or 0
      when there is none. The previous time is checked for truthiness, so a
      reading of 0 counts as none. */
  function DelaySince(last: Option<int>, now: int): int {
    if last.Some? && last.value != 0 then now - last.value else 0
  }

  /** `Input: ${command} (${timeSinceLast}ms)`. */
  function InputMessage(command: string, delay: int): string {
    "Input: " + command + " (" + IntToString(delay) + "ms)"
  }

  /** The state of the component that `addInput` reads and writes.
      `startTime` is `startTimeRef.current`, `None` for null. */
  class ClientState {
    var inputSequence: seq<ClientInput>
    var startTime: Option<int>
    var logs: seq<LogEntry>
    var sourceCode: string
    var status: Status
    var pendingCompilation: bool
    var notifications: seq<Feedback>

    /** The reference holds the time of the last input exactly while there
        is one; the first input has no delay and every later one records
        the time since the one before; the log is bounded. */
    ghost predicate Valid()
      reads this
    {
      && (startTime.Some? <==> |inputSequence| > 0)
      && (|inputSequence| > 0 ==> startTime == Some(inputSequence[|inputSequence| - 1].timestamp))
      && (|inputSequence| > 0 ==> inputSequence[0].millisecondsSincePrevious == 0)
      && (forall i :: 0 < i < |inputSequence| ==>
            inputSequence[i].millisecondsSincePrevious == DelaySince(Some(inputSequence[i - 1].timestamp), inputSequence[i].timestamp))
      && |logs| <= MaxLogs
    }

    constructor ()
      ensures Valid()
      ensures inputSequence == [] && startTime == None && logs == [] && sourceCode == ""
      ensures status == Idle && !pendingCompilation && notifications == []
    {
      inputSequence := [];
      startTime := None;
      logs := [];
      sourceCode := "";
      status := Idle;
      pendingCompilation := false;
      notifications := [];
    }

    /** `addLog(message, type)`. */
    method AddLog(message: string, kind: string, time: string)
      requires Valid()
      modifies this
      ensures Valid()
      ensures logs == PushLog(LogEntry(message, kind, time), old(logs))
      ensures inputSequence == old(inputSequence) && startTime == old(startTime) && sourceCode == old(sourceCode)
      ensures status == old(status) && pendingCompilation == old(pendingCompilation) && notifications == old(notifications)
    {
      logs := PushLog(LogEntry(message, kind, time), logs);
    }

    /** `addInput(command)` at clock reading `now` (`time` for the log):
        ignored after a success or while a compilation is pending;
        otherwise the input is appended with its delay, the reference moves
        to `now`, the input is logged, the source text is regenerated and
        the prefix feedback, if any, is raised. */
    method AddInput(command: string, now: int, time: string)
      requires Valid()
      modifies this
      ensures Valid()
      ensures status == Success || pendingCompilation ==> unchanged(this)
      ensures status != Success && !pendingCompilation ==>
                var delay := DelaySince(old(startTime), now);
                var f := PrefixFeedback(Commands(inputSequence));
                && inputSequence == old(inputSequence) + [ClientInput(command, now, delay)]
                && startTime == Some(now)
                && logs == PushLog(LogEntry(InputMessage(command, delay), "info", time), old(logs))
                && sourceCode == GenerateSourceCode(inputSequence)
                && notifications == old(notifications) + (if f.Silent? then [] else [f])
                && status == old(status) && pendingCompilation == old(pendingCompilation)
    {
      if status == Success || pendingCompilation {
        return;
      }
      var timeSinceLast := DelaySince(startTime, now);
      startTime := Some(now);
      var newSequence := inputSequence + [ClientInput(command, now, timeSinceLast)];
      inputSequence := newSequence;
      AddLog(InputMessage(command, timeSinceLast), "info", time);
      sourceCode := GenerateSourceCode(newSequence);
      var f := CheckSequencePrefix(Commands(newSequence));
      if !f.Silent? {
        notifications := notifications + [f];
      }
    }

    /** `resetSequence()`: no inputs, no reference time, idle. */
    method ResetSequence()
      requires Valid()
      modifies this
      ensures Valid()
      ensures inputSequence == [] && startTime == None && sourceCode == "" && status == Idle
      ensures logs == old(logs) && pendingCompilation == old(pendingCompilation) && notifications == old(notifications)
    {
      inputSequence := [];
      status := Idle;
      sourceCode := "";
      startTime := None;
    }
  }
}
