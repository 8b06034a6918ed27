/** `TimingValidator` (TimingValidator.cs): checks every gap after the first
    input against the timeout and the debounce limit, rejects negative gaps,
    and bounds the total duration. The `Errors` list is a field that each
    call clears and then appends to. */
module Timing {
  import opened Base
  import opened Models

  /** The five messages `TimingValidator` adds, by kind; `Text` in module
      `TimingText` spells them. */
  datatype TimingError =
    | EmptySequence
    | Timeout(position: int, ms: int)
    | TooFast(position: int, ms: int)
    | Negative(position: int, ms: int)
    | TooLong(total: int)

  /** The errors `ValidateInput` adds for the delay `d` at `position`, in
      the order of its three checks. */
  function InputErrors(d: int, position: int): seq<TimingError> {
    (if d > TIMEOUT_MS then [Timeout(position, d)] else [])
    + (if d < DEBOUNCE_MS then [TooFast(position, d)] else [])
    + (if d < 0 then [Negative(position, d)] else [])
  }

  /** The errors of the loop over positions 1 .. n-1. */
  function GapErrors(s: seq<TimedInput>, n: nat): seq<TimingError>
    requires n <= |s|
  {
    if n <= 1 then [] else GapErrors(s, n - 1) + InputErrors(s[n - 1].millisecondsSincePrevious as int, n - 1)
  }

  /** `ValidateTotalDuration`: the checked sum of all delays, first one
      included, and the error it adds above the maximum. */
  function DurationErrors(s: seq<TimedInput>): Result<seq<TimingError>> {
    var total := CheckedSum(Delays(s));
    if total.Throw? then Throw(total.message)
    else Ok(if total.value > MAX_SEQUENCE_DURATION then [TooLong(total.value)] else [])
  }

  /** `ValidateSequence(s)` as a value: the errors it leaves and its outcome. */
  function Validate(s: seq<TimedInput>): (seq<TimingError>, Result<bool>) {
    if |s| == 0 then ([EmptySequence], Ok(false))
    else
      var gaps := GapErrors(s, |s|);
      var d := DurationErrors(s);
      if d.Throw? then (gaps, Throw(d.message))
      else (gaps + d.value, Ok(gaps == [] && d.value == []))
  }

  /** A delay in range adds nothing; a negative one adds the debounce error
      and then the negative one. */
  lemma {:induction false} InputErrorsCases(d: int, position: int)
    ensures InputErrors(d, position) == [] <==> DEBOUNCE_MS <= d <= TIMEOUT_MS
    ensures d > TIMEOUT_MS ==> InputErrors(d, position) == [Timeout(position, d)]
    ensures 0 <= d < DEBOUNCE_MS ==> InputErrors(d, position) == [TooFast(position, d)]
    ensures d < 0 ==> InputErrors(d, position) == [TooFast(position, d), Negative(position, d)]
  {
  }

  /** The gap checks find nothing exactly when every gap after the first
      input lies in [DEBOUNCE_MS, TIMEOUT_MS]. */
  lemma {:induction false} GapErrorsEmpty(s: seq<TimedInput>, n: nat)
    requires n <= |s|
    ensures GapErrors(s, n) == [] <==>
              forall i :: 1 <= i < n ==> DEBOUNCE_MS <= s[i].millisecondsSincePrevious <= TIMEOUT_MS
  {
    if n > 1 {
      var e := InputErrors(s[n - 1].millisecondsSincePrevious as int, n - 1);
      GapErrorsEmpty(s, n - 1);
      InputErrorsCases(s[n - 1].millisecondsSincePrevious as int, n - 1);
      assert GapErrors(s, n) == GapErrors(s, n - 1) + e;
      assert |GapErrors(s, n)| == |GapErrors(s, n - 1)| + |e|;
    }
  }

  /** Each out-of-range gap contributes its own errors, naming position i+1. */
  lemma {:induction false} GapErrorsContain(s: seq<TimedInput>, n: nat, i: int)
    requires n <= |s| && 1 <= i < n
    ensures var d := s[i].millisecondsSincePrevious as int;
      && (d > TIMEOUT_MS ==> Timeout(i, d) in GapErrors(s, n))
      && (d < DEBOUNCE_MS ==> TooFast(i, d) in GapErrors(s, n))
      && (d < 0 ==> Negative(i, d) in GapErrors(s, n))
  {
    var d := s[i].millisecondsSincePrevious as int;
    var before := GapErrors(s, n - 1);
    var last := InputErrors(s[n - 1].millisecondsSincePrevious as int, n - 1);
    assert GapErrors(s, n) == before + last;
    if i < n - 1 {
      GapErrorsContain(s, n - 1, i);
      assert d > TIMEOUT_MS ==> Timeout(i, d) in before;
      assert d < DEBOUNCE_MS ==> TooFast(i, d) in before;
      assert d < 0 ==> Negative(i, d) in before;
    } else {
      InputErrorsContain(d, i);
    }
  }

  lemma InputErrorsContain(d: int, i: int)
    ensures d > TIMEOUT_MS ==> Timeout(i, d) in InputErrors(d, i)
    ensures d < DEBOUNCE_MS ==> TooFast(i, d) in InputErrors(d, i)
    ensures d < 0 ==> Negative(i, d) in InputErrors(d, i)
  {
  }

  /** Every error the gap checks report names a position from 2 on (the
      loop starts at the second input) whose delay is really out of range. */
  lemma {:induction false} GapErrorsSound(s: seq<TimedInput>, n: nat, e: TimingError)
    requires n <= |s| && e in GapErrors(s, n)
    ensures !e.EmptySequence? && !e.TooLong?
    ensures 1 <= e.position < n && e.ms == s[e.position].millisecondsSincePrevious
    ensures e.Timeout? ==> e.ms > TIMEOUT_MS
    ensures e.TooFast? ==> e.ms < DEBOUNCE_MS
    ensures e.Negative? ==> e.ms < 0
  {
    if e !in InputErrors(s[n - 1].millisecondsSincePrevious as int, n - 1) {
      GapErrorsSound(s, n - 1, e);
    }
  }

  /** The first input's delay is never checked as a gap. */
  lemma {:induction false} GapErrorsIgnoreFirst(s: seq<TimedInput>, n: nat, x: TimedInput)
    requires 0 < n <= |s|
    ensures GapErrors(s, n) == GapErrors(s[0 := x], n)
  {
    if n > 1 {
      GapErrorsIgnoreFirst(s, n - 1, x);
    }
  }

  /** When the sum does not overflow, `ValidateSequence` returns true exactly
      when it leaves `Errors` empty, and that is when every gap is in range
      and the total is at most MAX_SEQUENCE_DURATION. */
  lemma {:induction false} ValidateMeaning(s: seq<TimedInput>)
    requires Validate(s).1.Ok?
    ensures Validate(s).1.value <==> Validate(s).0 == []
    ensures Validate(s).1.value <==>
              && |s| > 0
              && (forall i :: 1 <= i < |s| ==> DEBOUNCE_MS <= s[i].millisecondsSincePrevious <= TIMEOUT_MS)
              && Sum(Delays(s)) <= MAX_SEQUENCE_DURATION
  {
    if |s| > 0 {
      var gaps, d := GapErrors(s, |s|), DurationErrors(s).value;
      assert Validate(s) == (gaps + d, Ok(gaps == [] && d == []));
      assert gaps + d == [] <==> gaps == [] && d == [] by {
        assert |gaps + d| == |gaps| + |d|;
      }
      GapErrorsEmpty(s, |s|);
    }
  }

  /** A total above MAX_SEQUENCE_DURATION fails the sequence even when every
      gap is in range, and the duration error comes last. */
  lemma {:induction false} LongSequenceFails(s: seq<TimedInput>)
    requires |s| > 0 && !SumOverflows(Delays(s)) && Sum(Delays(s)) > MAX_SEQUENCE_DURATION
    ensures Validate(s).1 == Ok(false)
    ensures Validate(s).0 == GapErrors(s, |s|) + [TooLong(Sum(Delays(s)))]
  {
    assert DurationErrors(s) == Ok([TooLong(Sum(Delays(s)))]);
  }

  /** A sequence whose delays overflow `int` makes `ValidateSequence` throw,
      after the gap errors; an empty one is a single error. */
  lemma {:induction false} ValidateEdges(s: seq<TimedInput>)
    ensures |s| == 0 ==> Validate(s) == ([EmptySequence], Ok(false))
    ensures |s| > 0 && SumOverflows(Delays(s)) ==>
              Validate(s) == (GapErrors(s, |s|), Throw(OverflowMessage))
  {
  }

  /** `TimingValidator`. `Errors` is kept as the list of error kinds; the
      strings the source stores are `Texts(errors)`. */
  class TimingValidator {
    var errors: seq<TimingError>

    constructor ()
      ensures errors == []
    {
      errors := [];
    }

    /** `ValidateSequence(sequence)`: clears `Errors`, checks each gap from
        the second input on and then the total; an overflowing total throws
        after the gap errors have been added. */
    method ValidateSequence(sequence: seq<TimedInput>) returns (r: Result<bool>)
      modifies this
      ensures (errors, r) == Validate(sequence)
    {
      errors := [];
      if |sequence| == 0 {
        errors := [EmptySequence];
        return Ok(false);
      }
      var isValid := true;
      for i := 1 to |sequence|
        invariant errors == GapErrors(sequence, i)
        invariant isValid <==> errors == []
      {
        var ok := ValidateInput(sequence[i], i);
        if !ok {
          isValid := false;
        }
      }
      var total := ValidateTotalDuration(sequence);
      if total.Throw? {
        return Throw(total.message);
      }
      if !total.value {
        isValid := false;
      }
      r := Ok(isValid);
    }

    /** `ValidateInput(input, position)`: the three checks, each adding its
        error; true when none fired. */
    method ValidateInput(input: TimedInput, position: int) returns (ok: bool)
      modifies this
      ensures errors == old(errors) + InputErrors(input.millisecondsSincePrevious as int, position)
      ensures ok <==> errors == old(errors)
    {
      ok := true;
      var d := input.millisecondsSincePrevious as int;
      if d > TIMEOUT_MS {
        errors := errors + [Timeout(position, d)];
        ok := false;
      }
      if d < DEBOUNCE_MS {
        errors := errors + [TooFast(position, d)];
        ok := false;
      }
      if d < 0 {
        errors := errors + [Negative(position, d)];
        ok := false;
      }
    }

    /** `ValidateTotalDuration(sequence)`: `Sum` throws on overflow. */
    method ValidateTotalDuration(sequence: seq<TimedInput>) returns (r: Result<bool>)
      modifies this
      ensures DurationErrors(sequence).Throw? ==> r == Throw(DurationErrors(sequence).message) && errors == old(errors)
      ensures DurationErrors(sequence).Ok? ==>
                && errors == old(errors) + DurationErrors(sequence).value
                && r == Ok(DurationErrors(sequence).value == [])
    {
      var total :- CheckedSum(Delays(sequence));
      if total > MAX_SEQUENCE_DURATION {
        errors := errors + [TooLong(total)];
        return Ok(false);
      }
      r := Ok(true);
    }
  }

  // ---------------------------------------------------------------------------
  // GetTimingStatistics
  // ---------------------------------------------------------------------------

  /** The integer entries of the statistics dictionary (`AverageTiming` is a
      double and is not modelled). */
  datatype TimingStatistics = TimingStatistics(totalDuration: int32, minTiming: int, maxTiming: int, inputCount: int)

  /** `Min()` of a non-empty list. */
  function SeqMin(xs: seq<int>): (m: int)
    requires |xs| > 0
    ensures forall i :: 0 <= i < |xs| ==> m <= xs[i]
  {
    if |xs| == 1 then xs[0]
    else
      var m := SeqMin(xs[..|xs| - 1]);
      assert forall i :: 0 <= i < |xs| - 1 ==> xs[..|xs| - 1][i] == xs[i];
      if xs[|xs| - 1] < m then xs[|xs| - 1] else m
  }

  /** `Max()` of a non-empty list. */
  function SeqMax(xs: seq<int>): (m: int)
    requires |xs| > 0
    ensures forall i :: 0 <= i < |xs| ==> xs[i] <= m
  {
    if |xs| == 1 then xs[0]
    else
      var m := SeqMax(xs[..|xs| - 1]);
      assert forall i :: 0 <= i < |xs| - 1 ==> xs[..|xs| - 1][i] == xs[i];
      if xs[|xs| - 1] > m then xs[|xs| - 1] else m
  }

  /** The minimum and the maximum are elements of the list. */
  lemma {:induction false} ExtremesAttained(xs: seq<int>)
    requires |xs| > 0
    ensures SeqMin(xs) in xs && SeqMax(xs) in xs
  {
    if |xs| > 1 {
      ExtremesAttained(xs[..|xs| - 1]);
    }
  }

  /** `GetTimingStatistics(sequence)`: nothing for an empty sequence;
      otherwise the checked total, the extremes of the gaps after the first
      input (0 when there is none) and the count. */
  function GetTimingStatistics(s: seq<TimedInput>): Result<Option<TimingStatistics>> {
    if |s| == 0 then Ok(None)
    else
      var total :- CheckedSum(Delays(s));
      var gaps := Delays(s[1..]);
      Ok(Some(TimingStatistics(total,
        if |gaps| > 0 then SeqMin(gaps) else 0,
        if |gaps| > 0 then SeqMax(gaps) else 0,
        |s|)))
  }

  /** The statistics of a non-empty sequence exist unless the total
      overflows; the total is the sum of all delays, first one included, the
      count is the length, and a single input has extremes 0. */
  lemma {:induction false} StatisticsTotals(s: seq<TimedInput>)
    requires |s| > 0
    ensures GetTimingStatistics(s).Ok? <==> !SumOverflows(Delays(s))
    ensures GetTimingStatistics(s).Ok? ==> GetTimingStatistics(s).value.Some?
    ensures GetTimingStatistics(s).Ok? ==>
      var st := GetTimingStatistics(s).value.value;
      && st.totalDuration == Sum(Delays(s)) && st.inputCount == |s|
      && (|s| == 1 ==> st.minTiming == 0 && st.maxTiming == 0)
  {
    if |s| == 1 {
      assert |Delays(s[1..])| == 0;
    }
  }

  /** The minimum and maximum bound every gap after the first input. */
  lemma {:induction false} StatisticsBounds(s: seq<TimedInput>)
    requires GetTimingStatistics(s).Ok? && |s| > 0
    ensures GetTimingStatistics(s).value.Some?
    ensures var st := GetTimingStatistics(s).value.value;
      && st.minTiming <= st.maxTiming
      && forall i :: 1 <= i < |s| ==> st.minTiming <= s[i].millisecondsSincePrevious <= st.maxTiming
  {
    var gaps := Delays(s[1..]);
    assert forall i :: 0 <= i < |gaps| ==> gaps[i] == s[i + 1].millisecondsSincePrevious;
  }

  /** With two inputs or more, the minimum and maximum are gaps after the
      first input. */
  lemma {:induction false} StatisticsAttained(s: seq<TimedInput>)
    requires GetTimingStatistics(s).Ok? && |s| > 1
    ensures GetTimingStatistics(s).value.Some?
    ensures var st := GetTimingStatistics(s).value.value;
      st.minTiming in Delays(s[1..]) && st.maxTiming in Delays(s[1..])
  {
    ExtremesAttained(Delays(s[1..]));
  }
}

/** The wording of the timing errors. */
module TimingText {
  import opened Base
  import opened Models
  import opened Timing

  function Text(e: TimingError): string {
    match e
    case EmptySequence => "Error: La secuencia está vacía"
    case Timeout(p, ms) =>
      "Error en input " + IntToString(p + 1) + ": Timeout excedido. "
      + "Tiempo transcurrido: " + IntToString(ms) + "ms, "
      + "Máximo permitido: " + IntToString(TIMEOUT_MS) + "ms"
    case TooFast(p, ms) =>
      "Error en input " + IntToString(p + 1) + ": Inputs demasiado rápidos. "
      + "Tiempo transcurrido: " + IntToString(ms) + "ms, "
      + "Mínimo requerido: " + IntToString(DEBOUNCE_MS) + "ms"
    case Negative(p, ms) =>
      "Error en input " + IntToString(p + 1) + ": Timing negativo detectado: " + IntToString(ms) + "ms"
    case TooLong(total) =>
      "Error: Duración total de la secuencia excede el límite. "
      + "Duración: " + IntToString(total) + "ms, Máximo: " + IntToString(MAX_SEQUENCE_DURATION) + "ms"
  }

  /** The strings of a list of errors, in order. */
  function Texts(es: seq<TimingError>): seq<string> {
    if |es| == 0 then [] else [Text(es[0])] + Texts(es[1..])
  }
}
