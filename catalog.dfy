/** `CyraxMoves` (MoveDefinitions.cs): the catalog of the compiler library,
    its exact lookup and its prefix test. */
module Catalog {
  import opened Base
  import opened Models

  const SelfDestruct: MoveDefinition := MoveDefinition(
    "FATALITY_SELF_DESTRUCT", "Self-Destruct", "FATALITY",
    ["DOWN", "DOWN", "UP", "DOWN", "HP"],
    "Cyrax se autodestruye en una explosión masiva", "Cyrax")

  const Helicopter: MoveDefinition := MoveDefinition(
    "FATALITY_HELICOPTER", "Helicopter", "FATALITY",
    ["DOWN", "DOWN", "FORWARD", "UP", "RUN"],
    "Cyrax usa sus hélices para destrozar al oponente", "Cyrax")

  const Brutality: MoveDefinition := MoveDefinition(
    "BRUTALITY_CYRAX", "Cyrax Brutality", "BRUTALITY",
    ["HP", "LK", "HK", "HK", "LP", "LP", "HP", "LP", "LK", "HK", "LK"],
    "Combinación devastadora de 11 golpes consecutivos", "Cyrax")

  /** `AllMoves`, in declaration order. */
  const AllMoves: seq<MoveDefinition> := [SelfDestruct, Helicopter, Brutality]

  /** The twelve command names of the grammar (directions, then buttons). */
  const CommandNames: seq<string> :=
    ["UP", "DOWN", "LEFT", "RIGHT", "FORWARD", "BACK", "LP", "HP", "LK", "HK", "BL", "RUN"]

  predicate IsCommand(c: string) {
    c in CommandNames
  }

  /** Every catalog sequence is non-empty and made of command names; no two
      entries share a sequence, an id or a name, and all three belong to Cyrax. */
  lemma CatalogWellFormed()
    ensures forall i :: 0 <= i < |AllMoves| ==>
              && |AllMoves[i].sequence| > 0 && AllMoves[i].character == "Cyrax"
              && forall k :: 0 <= k < |AllMoves[i].sequence| ==> IsCommand(AllMoves[i].sequence[k])
    ensures forall i, j :: 0 <= i < j < |AllMoves| ==>
              && AllMoves[i].sequence != AllMoves[j].sequence
              && AllMoves[i].id != AllMoves[j].id && AllMoves[i].name != AllMoves[j].name
    ensures [AllMoves[0].kind, AllMoves[1].kind, AllMoves[2].kind] == ["FATALITY", "FATALITY", "BRUTALITY"]
  {
    assert SelfDestruct.sequence[2] != Helicopter.sequence[2];
    assert |SelfDestruct.sequence| != |Brutality.sequence|;
    assert |Helicopter.sequence| != |Brutality.sequence|;
  }

  /** `moves.FirstOrDefault(m => m.Sequence.SequenceEqual(s))`. */
  function FirstWithSequence(moves: seq<MoveDefinition>, s: seq<string>): (r: Option<MoveDefinition>)
    ensures r.Some? ==> r.value in moves && r.value.sequence == s
    ensures r.None? <==> forall i :: 0 <= i < |moves| ==> moves[i].sequence != s
  {
    if |moves| == 0 then None
    else if moves[0].sequence == s then Some(moves[0])
    else FirstWithSequence(moves[1..], s)
  }

  /** The entry found is the first one, in list order, whose sequence matches. */
  lemma {:induction false} FirstWithSequenceIsFirst(moves: seq<MoveDefinition>, s: seq<string>, i: int)
    requires 0 <= i < |moves| && moves[i].sequence == s
    requires forall j :: 0 <= j < i ==> moves[j].sequence != s
    ensures FirstWithSequence(moves, s) == Some(moves[i])
  {
    if i > 0 {
      FirstWithSequenceIsFirst(moves[1..], s, i - 1);
    }
  }

  /** `FindBySequence(sequence)`: the move whose sequence equals the input, or null. */
  function FindBySequence(s: seq<string>): Option<MoveDefinition> {
    FirstWithSequence(AllMoves, s)
  }

  /** Every catalog entry is found from its own sequence. */
  lemma FindBySequenceFindsEachMove(i: int)
    requires 0 <= i < |AllMoves|
    ensures FindBySequence(AllMoves[i].sequence) == Some(AllMoves[i])
  {
    CatalogWellFormed();
    FirstWithSequenceIsFirst(AllMoves, AllMoves[i].sequence, i);
  }

  /** A sequence that is no entry's finds nothing. */
  lemma FindBySequenceNone(s: seq<string>)
    ensures FindBySequence(s).None? <==> forall i :: 0 <= i < |AllMoves| ==> AllMoves[i].sequence != s
  {
  }

  /** `s.Count < m.Sequence.Count && s.SequenceEqual(m.Sequence.Take(s.Count))`:
      `s` starts `m`'s sequence and is strictly shorter. */
  predicate StrictPrefixOf(s: seq<string>, m: seq<string>) {
    |s| < |m| && m[..|s|] == s
  }

  /** `moves.Any(m => StrictPrefixOf(s, m.Sequence))`. */
  function AnyStrictPrefix(moves: seq<MoveDefinition>, s: seq<string>): (r: bool)
    ensures r <==> exists i :: 0 <= i < |moves| && StrictPrefixOf(s, moves[i].sequence)
  {
    if |moves| == 0 then false
    else
      assert forall i :: 1 <= i < |moves| ==> moves[i] == moves[1..][i - 1];
      StrictPrefixOf(s, moves[0].sequence) || AnyStrictPrefix(moves[1..], s)
  }

  /** `IsValidPrefix(sequence)`: false for an empty sequence, otherwise
      whether some entry strictly extends it. */
  function IsValidPrefix(s: seq<string>): (r: bool)
    ensures r <==> |s| > 0 && exists i :: 0 <= i < |AllMoves| && StrictPrefixOf(s, AllMoves[i].sequence)
  {
    if |s| == 0 then false else AnyStrictPrefix(AllMoves, s)
  }

  /** No complete move is a valid prefix: no entry's sequence starts another's. */
  lemma CompleteMoveIsNoPrefix(i: int)
    requires 0 <= i < |AllMoves|
    ensures !IsValidPrefix(AllMoves[i].sequence)
  {
    var s := AllMoves[i].sequence;
    if i < 2 {
      assert Brutality.sequence[..|s|][0] != s[0];
    }
    assert forall j :: 0 <= j < |AllMoves| ==> !StrictPrefixOf(s, AllMoves[j].sequence);
  }

  /** Dropping the last command of a valid prefix of length two or more
      leaves a valid prefix. */
  lemma PrefixMonotone(s: seq<string>)
    requires IsValidPrefix(s) && |s| >= 2
    ensures IsValidPrefix(s[..|s| - 1])
  {
    var i :| 0 <= i < |AllMoves| && StrictPrefixOf(s, AllMoves[i].sequence);
    var m := AllMoves[i].sequence;
    assert m[..|s| - 1] == m[..|s|][..|s| - 1];
    assert StrictPrefixOf(s[..|s| - 1], m);
  }
}
