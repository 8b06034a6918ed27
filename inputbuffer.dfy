/** `InputBuffer` (src/InputCapture/InputBuffer/InputBuffer.cs): the inputs
    captured since the current sequence began, an activity flag and the
    time the sequence began. The threading timer is not modelled: its
    expiry is the explicit call `OnTimeoutElapsed`, and each event is the
    value the raising method returns. */
module CaptureBuffer {
  import opened Base
  import opened Models

  /** The message of the `InvalidOperationException` that `Average` throws
      on an empty sequence. */
  const NoElementsMessage: string := "Sequence contains no elements"

  /** `SequenceStatistics` without `AverageTiming`, a double. `startTime`
      is in ticks, 0 being `default(DateTime)`. */
  datatype SequenceStatistics = SequenceStatistics(inputCount: int, totalDuration: int32, startTime: int, isActive: bool)

  /** `new SequenceStatistics()`. */
  const DefaultStatistics := SequenceStatistics(0, 0, 0, false)

  /** `GetStatistics()` over the buffer's contents, start time and flag:
      the default record for an empty buffer; otherwise the initialiser
      sums the delays with checked additions, then averages the delays
      after the first input, which throws when there are none. */
  function Statistics(s: seq<TimedInput>, start: int, active: bool): (r: Result<SequenceStatistics>)
    ensures |s| == 0 ==> r == Ok(DefaultStatistics)
    ensures |s| > 0 ==> (r.Ok? <==> |s| >= 2 && !SumOverflows(Delays(s)))
    ensures r.Throw? ==> r.message == (if SumOverflows(Delays(s)) then OverflowMessage else NoElementsMessage)
    ensures |s| > 0 && r.Ok? ==>
              && r.value.inputCount == |s| && r.value.totalDuration as int == Sum(Delays(s))
              && r.value.startTime == start && r.value.isActive == active
  {
    if |s| == 0 then Ok(DefaultStatistics)
    else
      var total :- CheckedSum(Delays(s));
      if |s| == 1 then Throw(NoElementsMessage)
      else Ok(SequenceStatistics(|s|, total, start, active))
  }

  /** A single input cannot overflow the sum, so its statistics always
      throw the empty-average exception. */
  lemma {:induction false} SingleInputStatistics(x: TimedInput, start: int, active: bool)
    ensures Statistics([x], start, active) == Throw(NoElementsMessage)
  {
    var d := Delays([x]);
    assert d == [x.millisecondsSincePrevious as int];
    assert d[..0] == [];
    SumSingle(d[0]);
    assert !SumOverflows(d);
  }

  class InputBuffer {
    var currentSequence: seq<TimedInput>
    var sequenceStartTime: int
    var isActive: bool

    /** The buffer is active exactly while it holds inputs, and the start
        time is then the timestamp of the first of them. */
    ghost predicate Valid()
      reads this
    {
      && (isActive <==> |currentSequence| > 0)
      && (|currentSequence| > 0 ==> sequenceStartTime == currentSequence[0].timestamp)
    }

    constructor ()
      ensures Valid()
      ensures currentSequence == [] && !isActive && sequenceStartTime == 0
    {
      currentSequence := [];
      sequenceStartTime := 0;
      isActive := false;
    }

    /** `InputCount`. */
    function InputCount(): (r: nat)
      reads this
      ensures r == |currentSequence|
    {
      |currentSequence|
    }

    /** `AddInput(input)`: null changes nothing. The first input of a
        sequence records its timestamp as the start time and activates the
        buffer; every input is appended at the end. */
    method AddInput(input: Option<TimedInput>)
      requires Valid()
      modifies this
      ensures Valid()
      ensures input.None? ==> unchanged(this)
      ensures input.Some? ==>
                && currentSequence == old(currentSequence) + [input.value]
                && isActive
                && sequenceStartTime == (if |old(currentSequence)| == 0 then input.value.timestamp else old(sequenceStartTime))
    {
      if input.None? {
        return;
      }
      if |currentSequence| == 0 {
        sequenceStartTime := input.value.timestamp;
        isActive := true;
      }
      currentSequence := currentSequence + [input.value];
    }

    /** `CompleteSequence()`: nothing for an empty buffer; otherwise the
        completion event carries a copy of the inputs, and the buffer is
        left empty and inactive. */
    method CompleteSequence() returns (completed: Option<seq<TimedInput>>)
      requires Valid()
      modifies this
      ensures Valid()
      ensures |old(currentSequence)| == 0 ==> completed.None? && unchanged(this)
      ensures |old(currentSequence)| > 0 ==>
                && completed == Some(old(currentSequence))
                && currentSequence == [] && !isActive && sequenceStartTime == old(sequenceStartTime)
    {
      if |currentSequence| == 0 {
        return None;
      }
      isActive := false;
      completed := Some(currentSequence);
      Clear();
    }

    /** `CancelSequence()`: the inputs are dropped without an event. */
    method CancelSequence()
      modifies this
      ensures Valid()
      ensures currentSequence == [] && !isActive && sequenceStartTime == old(sequenceStartTime)
    {
      isActive := false;
      Clear();
    }

    /** `Clear()`. */
    method Clear()
      modifies this
      ensures Valid()
      ensures currentSequence == [] && !isActive && sequenceStartTime == old(sequenceStartTime)
    {
      currentSequence := [];
      isActive := false;
    }

    /** `GetCurrentSequence()`: a copy of the inputs; the buffer is not
        changed. */
    method GetCurrentSequence() returns (copy: seq<TimedInput>)
      ensures copy == currentSequence
    {
      copy := currentSequence;
    }

    /** `OnTimeoutElapsed(state)`: nothing for an empty buffer; otherwise
        the timeout event carries a copy of the inputs, and the buffer is
        left empty and inactive. */
    method OnTimeoutElapsed() returns (timedOut: Option<seq<TimedInput>>)
      requires Valid()
      modifies this
      ensures Valid()
      ensures |old(currentSequence)| == 0 ==> timedOut.None? && unchanged(this)
      ensures |old(currentSequence)| > 0 ==>
                && timedOut == Some(old(currentSequence))
                && currentSequence == [] && !isActive && sequenceStartTime == old(sequenceStartTime)
    {
      if |currentSequence| == 0 {
        return None;
      }
      isActive := false;
      timedOut := Some(currentSequence);
      Clear();
    }

    /** `GetStatistics()`. In a valid buffer with inputs, the record counts
        them, starts at the first one's timestamp and is active. */
    function GetStatistics(): (r: Result<SequenceStatistics>)
      reads this
      ensures r == Statistics(currentSequence, sequenceStartTime, isActive)
      ensures Valid() && r.Ok? && |currentSequence| > 0 ==>
                r.value.startTime == currentSequence[0].timestamp && r.value.isActive
    {
      Statistics(currentSequence, sequenceStartTime, isActive)
    }
  }
}
