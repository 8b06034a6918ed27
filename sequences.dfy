/** `SequenceValidator` (SequenceValidator.cs): identification of a move
    from the commands of a sequence, prefix checks, the moves still
    possible and the next command each of them expects. */
module Sequences {
  import opened Base
  import opened Models
  import opened Catalog

  /** The two messages `IdentifyMove` adds; `SequenceText.Text` spells them. */
  datatype SequenceError =
    | EmptySequence
    | NoMatch(commands: seq<string>)

  /** `IdentifyMove(sequence)` as a value: the errors it leaves and the move
      it returns. Delays play no part. */
  function Identify(s: seq<TimedInput>): (seq<SequenceError>, Option<MoveDefinition>) {
    if |s| == 0 then ([EmptySequence], None)
    else
      var move := FindBySequence(Commands(s));
      if move.None? then ([NoMatch(Commands(s))], None) else ([], move)
  }

  /** `IdentifyMove` leaves exactly one error when it returns null and none
      otherwise; the move it returns is the catalog entry whose sequence is
      the list of commands. */
  lemma {:induction false} IdentifyMeaning(s: seq<TimedInput>)
    ensures Identify(s).1.None? <==> |Identify(s).0| == 1
    ensures Identify(s).1.Some? <==> Identify(s).0 == []
    ensures Identify(s).1.Some? ==>
              Identify(s).1.value in AllMoves && Identify(s).1.value.sequence == Commands(s)
    ensures |s| > 0 && Identify(s).1.None? ==> Identify(s).0 == [NoMatch(Commands(s))]
    ensures (exists i :: 0 <= i < |AllMoves| && AllMoves[i].sequence == Commands(s)) ==> Identify(s).1.Some?
  {
    if exists i :: 0 <= i < |AllMoves| && AllMoves[i].sequence == Commands(s) {
      var i :| 0 <= i < |AllMoves| && AllMoves[i].sequence == Commands(s);
      FindBySequenceFindsEachMove(i);
      assert |s| > 0 by {
        CatalogWellFormed();
      }
    }
  }

  /** Two sequences with the same commands are identified alike, whatever
      their delays. */
  lemma {:induction false} IdentifyIgnoresDelays(s: seq<TimedInput>, t: seq<TimedInput>)
    requires Commands(s) == Commands(t)
    ensures Identify(s) == Identify(t)
  {
    assert |s| == |Commands(s)| == |t|;
  }

  /** `IsValidPrefixSequence(sequence)`: false for an empty sequence, else
      `CyraxMoves.IsValidPrefix` of its commands. */
  function IsValidPrefixSequence(s: seq<TimedInput>): (r: bool)
    ensures |s| == 0 ==> !r
  {
    if |s| == 0 then false else IsValidPrefix(Commands(s))
  }

  /** `a` is `b` with some entries removed, the rest in order. */
  predicate SublistOf<T(==)>(a: seq<T>, b: seq<T>)
    decreases |b|
  {
    if |a| == 0 then true
    else if |b| == 0 then false
    else if a[0] == b[0] then SublistOf(a[1..], b[1..])
    else SublistOf(a, b[1..])
  }

  /** `moves.Where(m => StrictPrefixOf(commands, m.Sequence)).ToList()`. */
  function PrefixedBy(moves: seq<MoveDefinition>, c: seq<string>): (r: seq<MoveDefinition>)
    ensures SublistOf(r, moves)
    ensures forall m :: m in r <==> m in moves && StrictPrefixOf(c, m.sequence)
  {
    if |moves| == 0 then []
    else
      var rest := PrefixedBy(moves[1..], c);
      assert forall m :: m in moves <==> m == moves[0] || m in moves[1..];
      if StrictPrefixOf(c, moves[0].sequence) then
        assert ([moves[0]] + rest)[1..] == rest;
        [moves[0]] + rest
      else
        SublistOfSkip(rest, moves);
        rest
  }

  lemma {:induction false} SublistOfSkip<T>(a: seq<T>, b: seq<T>)
    requires |b| > 0 && SublistOf(a, b[1..])
    ensures SublistOf(a, b)
    decreases |a| + |b|
  {
    if |a| > 0 && a[0] == b[0] {
      SublistOfDrop(a, b[1..]);
    }
  }

  lemma {:induction false} SublistOfDrop<T>(a: seq<T>, b: seq<T>)
    requires |a| > 0 && SublistOf(a, b)
    ensures SublistOf(a[1..], b)
    decreases |a| + |b|
  {
    if a[0] == b[0] {
      if |a| > 1 {
        SublistOfSkip(a[1..], b);
      }
    } else {
      SublistOfDrop(a, b[1..]);
      if |a| > 1 {
        SublistOfSkip(a[1..], b);
      }
    }
  }

  /** `GetPossibleMoves(sequence)`: every move for an empty sequence, else
      the entries, in catalog order, that its commands strictly prefix. */
  function GetPossibleMoves(s: seq<TimedInput>): (r: seq<MoveDefinition>)
    ensures SublistOf(r, AllMoves)
    ensures |s| > 0 ==> forall m :: m in r <==> m in AllMoves && StrictPrefixOf(Commands(s), m.sequence)
  {
    if |s| == 0 then
      assert SublistOf(AllMoves, AllMoves) by {
        SublistOfSelf(AllMoves);
      }
      AllMoves
    else PrefixedBy(AllMoves, Commands(s))
  }

  lemma {:induction false} SublistOfSelf<T>(a: seq<T>)
    ensures SublistOf(a, a)
    decreases |a|
  {
    if |a| > 0 {
      SublistOfSelf(a[1..]);
    }
  }

  /** For a non-empty sequence, it is a valid prefix exactly when some move
      is still possible; and with no command yet, every move is. */
  lemma {:induction false} PrefixIffPossible(s: seq<TimedInput>)
    ensures |s| > 0 ==> (IsValidPrefixSequence(s) <==> |GetPossibleMoves(s)| > 0)
    ensures |s| == 0 ==> GetPossibleMoves(s) == AllMoves
  {
    if |s| > 0 {
      var r := GetPossibleMoves(s);
      if IsValidPrefixSequence(s) {
        var i :| 0 <= i < |AllMoves| && StrictPrefixOf(Commands(s), AllMoves[i].sequence);
        assert AllMoves[i] in r;
      }
      if |r| > 0 {
        assert r[0] in r;
        var i :| 0 <= i < |AllMoves| && AllMoves[i] == r[0];
        assert StrictPrefixOf(Commands(s), AllMoves[i].sequence);
      }
    }
  }

  /** The dictionary `GetNextExpectedInputs` builds after visiting `moves`
      in order: each move longer than `len` maps its name to the command at
      index `len`, a later write replacing an earlier one. */
  function NextExpected(moves: seq<MoveDefinition>, len: nat): map<string, string> {
    if |moves| == 0 then map[]
    else
      var m := NextExpected(moves[..|moves| - 1], len);
      var last := moves[|moves| - 1];
      if len < |last.sequence| then m[last.name := last.sequence[len]] else m
  }

  /** Keys are the names of the visited moves longer than `len`; the value
      of a name that no later move shares is that move's command at `len`. */
  lemma {:induction false} NextExpectedMeaning(moves: seq<MoveDefinition>, len: nat)
    ensures forall k :: k in NextExpected(moves, len) <==>
              exists i :: 0 <= i < |moves| && moves[i].name == k && len < |moves[i].sequence|
    ensures forall i :: 0 <= i < |moves| && len < |moves[i].sequence| &&
                        (forall j :: i < j < |moves| ==> moves[j].name != moves[i].name) ==>
              NextExpected(moves, len)[moves[i].name] == moves[i].sequence[len]
  {
    if |moves| > 0 {
      var front := moves[..|moves| - 1];
      NextExpectedMeaning(front, len);
      assert forall i :: 0 <= i < |front| ==> front[i] == moves[i];
    }
  }

  /** `GetNextExpectedInputs(sequence)`: the loop over the possible moves. */
  method GetNextExpectedInputs(s: seq<TimedInput>) returns (result: map<string, string>)
    ensures result == NextExpected(GetPossibleMoves(s), |s|)
  {
    var possibleMoves := GetPossibleMoves(s);
    result := map[];
    var currentLength := |s|;
    for k := 0 to |possibleMoves|
      invariant result == NextExpected(possibleMoves[..k], currentLength)
    {
      var move := possibleMoves[k];
      ghost var visited := possibleMoves[..k + 1];
      assert visited[..|visited| - 1] == possibleMoves[..k] && visited[|visited| - 1] == move;
      if currentLength < |move.sequence| {
        var nextInput := move.sequence[currentLength];
        result := result[move.name := nextInput];
      }
    }
    assert possibleMoves[..|possibleMoves|] == possibleMoves;
  }

  /** Each possible move's name maps to the command it expects next, and no
      other key is present; with no command yet, that is each move's first
      command. */
  lemma {:induction false} NextExpectedInputsMeaning(s: seq<TimedInput>, i: int)
    requires 0 <= i < |AllMoves|
    ensures AllMoves[i] in GetPossibleMoves(s) <==> AllMoves[i].name in NextExpected(GetPossibleMoves(s), |s|)
    ensures AllMoves[i] in GetPossibleMoves(s) ==>
              NextExpected(GetPossibleMoves(s), |s|)[AllMoves[i].name] == AllMoves[i].sequence[|s|]
    ensures |s| == 0 ==> NextExpected(GetPossibleMoves(s), 0)[AllMoves[i].name] == AllMoves[i].sequence[0]
  {
    var p, m := GetPossibleMoves(s), AllMoves[i];
    NextExpectedMeaning(p, |s|);
    PossibleMovesShape(s);
    if m in p {
      var k :| 0 <= k < |p| && p[k] == m;
      assert forall j :: k < j < |p| ==> p[j].name != p[k].name;
    }
    if m.name in NextExpected(p, |s|) {
      var k :| 0 <= k < |p| && p[k].name == m.name && |s| < |p[k].sequence|;
      UniqueName(p[k], i);
    }
    if |s| == 0 {
      assert p[i] == m;
    }
  }

  /** A move of the catalog is the only one with its name. */
  lemma UniqueName(m: MoveDefinition, i: int)
    requires m in AllMoves && 0 <= i < |AllMoves| && m.name == AllMoves[i].name
    ensures m == AllMoves[i]
  {
    CatalogWellFormed();
  }

  /** Every possible move is strictly longer than the sequence, and no two
      possible moves share a name. */
  lemma {:induction false} PossibleMovesShape(s: seq<TimedInput>)
    ensures forall m :: m in GetPossibleMoves(s) ==> m in AllMoves && |s| < |m.sequence|
    ensures forall j, k :: 0 <= j < k < |GetPossibleMoves(s)| ==>
              GetPossibleMoves(s)[j].name != GetPossibleMoves(s)[k].name
  {
    CatalogWellFormed();
    var p := GetPossibleMoves(s);
    SublistDistinct(p, AllMoves);
    if |s| > 0 {
      assert forall m :: m in p ==> |Commands(s)| < |m.sequence|;
    }
  }

  /** A sublist of a list with distinct names has distinct names. */
  lemma {:induction false} SublistDistinct(a: seq<MoveDefinition>, b: seq<MoveDefinition>)
    requires SublistOf(a, b)
    requires forall j, k :: 0 <= j < k < |b| ==> b[j].name != b[k].name
    ensures forall j, k :: 0 <= j < k < |a| ==> a[j].name != a[k].name
    ensures forall m :: m in a ==> m in b
    decreases |b|
  {
    if |a| > 0 && |b| > 0 {
      if a[0] == b[0] {
        SublistDistinct(a[1..], b[1..]);
        assert forall k :: 0 < k < |a| ==> a[k] in b[1..] by {
          assert forall k :: 0 < k < |a| ==> a[k] == a[1..][k - 1];
        }
        assert forall k :: 0 < k < |a| ==> a[k].name != a[0].name by {
          forall k | 0 < k < |a|
            ensures a[k].name != a[0].name
          {
            var x :| 0 <= x < |b[1..]| && b[1..][x] == a[k];
            assert b[x + 1] == a[k];
          }
        }
        assert forall j, k :: 0 < j < k < |a| ==> a[j] == a[1..][j - 1] && a[k] == a[1..][k - 1];
      } else {
        SublistDistinct(a, b[1..]);
      }
    }
  }

  /** `SequenceValidator`. `Errors` is kept as the list of error kinds; the
      strings the source stores are `SequenceText.Texts(errors)`. */
  class SequenceValidator {
    var errors: seq<SequenceError>

    constructor ()
      ensures errors == []
    {
      errors := [];
    }

    /** `IdentifyMove(sequence)`: clears `Errors`, then looks the commands up
        in the catalog. */
    method IdentifyMove(sequence: seq<TimedInput>) returns (move: Option<MoveDefinition>)
      modifies this
      ensures (errors, move) == Identify(sequence)
    {
      errors := [];
      if |sequence| == 0 {
        errors := [EmptySequence];
        return None;
      }
      var commands := Commands(sequence);
      move := FindBySequence(commands);
      if move.None? {
        errors := [NoMatch(commands)];
        return None;
      }
    }
  }
}

/** The wording of the sequence errors. */
module SequenceText {
  import opened Base
  import opened Sequences

  function Text(e: SequenceError): string {
    match e
    case EmptySequence => "Error: La secuencia está vacía"
    case NoMatch(commands) =>
      "Error: La secuencia [" + Join(", ", commands) + "] "
      + "no coincide con ninguna Fatality o Brutality conocida de Cyrax."
  }

  function Texts(es: seq<SequenceError>): seq<string> {
    if |es| == 0 then [] else [Text(es[0])] + Texts(es[1..])
  }
}
