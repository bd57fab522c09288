/** The bounded position: a signed position and its bound in two words of a state array, updated
    absolutely or relatively with wrapping addition and a clamp. */
module BoundedPosition {
  import opened Words

  const POSITION := 173 // 0x2b4 / 4
  const BOUND := 174 // 0x2b8 / 4

  /** An accepted update: where the position goes and the difference reported. */
  datatype Move = Move(position: i32, difference: i32)

  function Updated(before: i32, bound: i32, absolute: u32, request: i32): Option<Move> {
    if absolute != 0 then
      if request < 0 then None
      else if bound == 0 then Some(Move(request, 0))
      else
        var next := if request < bound then request else WrapSigned(bound - 1);
        Some(Move(next, if before >= 0 then WrapSigned(next - before) else 0))
    else if before < 0 then None
    else
      var next := WrapSigned(before + request);
      Some(Move(if next < 0 then 0 else if bound != 0 && next >= bound then WrapSigned(bound - 1) else next, 0))
  }

  /** `bounded_position_update`. The difference is written last, and may go to any word of the state; a
      rejection touches nothing, the output included. */
  method Update(state: array<i32>, absolute: u32, request: i32, difference: nat) returns (accepted: u32)
    requires state.Length > BOUND
    requires Updated(state[POSITION], state[BOUND], absolute, request).Some? ==> difference < state.Length
    modifies state
    ensures match Updated(old(state[POSITION]), old(state[BOUND]), absolute, request)
            case None => accepted == 0 && state[..] == old(state[..])
            case Some(m) => accepted == 1
                            && state[..] == old(state[..])[POSITION := m.position][difference := m.difference]
  {
    var delta := 0;
    if absolute != 0 {
      if request < 0 {
        return 0;
      }
      var limit: int := state[BOUND];
      if limit == 0 {
        state[POSITION] := request;
      } else {
        var before: int := state[POSITION];
        var next: int := if request < limit then request else WrapSigned(limit - 1);
        if before >= 0 {
          delta := WrapSigned(next - before);
        }
        state[POSITION] := next;
      }
    } else {
      var before: int := state[POSITION];
      if before < 0 {
        return 0;
      }
      var next := WrapSigned(before + request);
      state[POSITION] := next;
      if next < 0 {
        state[POSITION] := 0;
      } else {
        var limit: int := state[BOUND];
        if limit != 0 && next >= limit {
          state[POSITION] := WrapSigned(limit - 1);
        }
      }
    }
    state[difference] := delta;
    return 1;
  }

  // ---------------------------------------------------------------------------------------------
  // One update
  // ---------------------------------------------------------------------------------------------

  predicate InRange(position: i32, bound: i32) {
    0 <= position < bound
  }

  /** With a positive bound every accepted update, absolute or relative, from anywhere, lands in range. */
  lemma AcceptedLandsInRange(before: i32, bound: i32, absolute: u32, request: i32)
    requires bound > 0 && Updated(before, bound, absolute, request).Some?
    ensures InRange(Updated(before, bound, absolute, request).value.position, bound)
  {
    SignedInRange(bound - 1);
  }

  lemma SignedInRange(x: int)
    requires -TWO_31 <= x < TWO_31
    ensures WrapSigned(x) == x
  {
  }

  lemma SignedOverflow(x: int)
    requires TWO_31 <= x < TWO_32
    ensures WrapSigned(x) == x - TWO_32
  {
  }

  /** Where exact integer arithmetic would put a relative update. */
  function Clamped(x: int, bound: int): int {
    if x < 0 then 0 else if x >= bound then bound - 1 else x
  }

  /** A relative update from within range is the exact clamp precisely when the sum fits a signed word;
      when it does not the position lands on 0, which is only right for a bound of one. */
  lemma RelativeIsClampExactlyWhen(before: i32, bound: i32, request: i32)
    requires InRange(before, bound)
    ensures var m := Updated(before, bound, 0, request);
            && m.Some? && m.value.difference == 0
            && (m.value.position == Clamped(before + request, bound) <==> before + request < TWO_31 || bound == 1)
            && (before + request >= TWO_31 ==> m.value.position == 0)
  {
    SignedInRange(bound - 1);
    if before + request < TWO_31 {
      SignedInRange(before + request);
    } else {
      SignedOverflow(before + request);
    }
  }

  /** Which updates are rejected: an absolute one for a negative position, and a relative one from a negative
      position. */
  lemma RejectedExactlyWhen(before: i32, bound: i32, absolute: u32, request: i32)
    ensures Updated(before, bound, absolute, request).None? <==> if absolute != 0 then request < 0 else before < 0
  {
  }

  /** A bound of zero is no bound: an absolute request is taken as it is and reports nothing, and a relative
      one is the sum itself, unless that is negative or past the signed word, where it is 0. */
  lemma ZeroBoundIsNone(before: i32, absolute: u32, request: i32)
    ensures absolute != 0 && request >= 0 ==> Updated(before, 0, absolute, request) == Some(Move(request, 0))
    ensures absolute == 0 && before >= 0 ==>
              Updated(before, 0, absolute, request)
              == Some(Move(if 0 <= before + request < TWO_31 then before + request else 0, 0))
  {
    if absolute == 0 && before >= 0 {
      if before + request < TWO_31 {
        SignedInRange(before + request);
      } else {
        SignedOverflow(before + request);
      }
    }
  }

  /** Under a negative bound every accepted update goes to the word below the bound, wrapping from the least
      word to the greatest, or to 0 where a relative sum turns negative. */
  lemma NegativeBoundLands(before: i32, bound: i32, absolute: u32, request: i32)
    requires bound < 0 && Updated(before, bound, absolute, request).Some?
    ensures var below := if bound == -0x8000_0000 then 0x7fff_ffff else bound - 1;
            Updated(before, bound, absolute, request).value.position
            == if absolute == 0 && !(0 <= before + request < TWO_31) then 0 else below
  {
    if bound == -0x8000_0000 {
      assert WrapSigned(bound - 1) == 0x7fff_ffff;
    } else {
      SignedInRange(bound - 1);
    }
    if absolute == 0 {
      if before + request < TWO_31 {
        SignedInRange(before + request);
      } else {
        SignedOverflow(before + request);
      }
    }
  }

  /** What an accepted update reports: nothing for a relative one, from a negative position or without a
      bound, and otherwise the wrapping displacement. */
  lemma DifferenceOf(before: i32, bound: i32, absolute: u32, request: i32)
    requires Updated(before, bound, absolute, request).Some?
    ensures var m := Updated(before, bound, absolute, request).value;
            m.difference == if absolute == 0 || bound == 0 || before < 0 then 0 else WrapSigned(m.position - before)
  {
  }

  /** The largest relative request from position 1 of 10 goes to 0, where the exact clamp is 9. */
  lemma LargestStepLandsOnZero()
    ensures Updated(1, 10, 0, 0x7fff_ffff) == Some(Move(0, 0)) && Clamped(1 + 0x7fff_ffff, 10) == 9
  {
    SignedOverflow(0x8000_0000);
  }

  /** An absolute update from within range reports its true displacement. */
  lemma AbsoluteReportsDisplacement(before: i32, bound: i32, absolute: u32, request: i32)
    requires absolute != 0 && bound > 0 && 0 <= before
    ensures match Updated(before, bound, absolute, request)
            case None => request < 0
            case Some(m) => 0 <= request && m.position == Min(request, bound - 1) && m.difference == m.position - before
  {
    SignedInRange(bound - 1);
    if request >= 0 {
      SignedInRange(Min(request, bound - 1) - before);
    }
  }

  // ---------------------------------------------------------------------------------------------
  // Runs
  // ---------------------------------------------------------------------------------------------

  datatype Op = Op(absolute: u32, request: i32)

  function After(position: i32, bound: i32, op: Op): i32 {
    match Updated(position, bound, op.absolute, op.request)
    case None => position
    case Some(m) => m.position
  }

  function Reported(position: i32, bound: i32, op: Op): i32 {
    match Updated(position, bound, op.absolute, op.request)
    case None => 0
    case Some(m) => m.difference
  }

  ghost function RunPosition(position: i32, bound: i32, ops: seq<Op>): i32
    decreases |ops|
  {
    if ops == [] then position else RunPosition(After(position, bound, ops[0]), bound, ops[1..])
  }

  ghost function RunReported(position: i32, bound: i32, ops: seq<Op>): int
    decreases |ops|
  {
    if ops == [] then 0
    else Reported(position, bound, ops[0]) + RunReported(After(position, bound, ops[0]), bound, ops[1..])
  }

  /** What relative updates move without reporting. */
  ghost function RunUnreported(position: i32, bound: i32, ops: seq<Op>): int
    decreases |ops|
  {
    if ops == [] then 0
    else (if ops[0].absolute == 0 then After(position, bound, ops[0]) - position else 0)
         + RunUnreported(After(position, bound, ops[0]), bound, ops[1..])
  }

  /** Over any run from a position that is not negative, under a positive bound, the reported differences
      and the silent relative moves sum to the whole displacement; a run of absolute updates alone
      reports it all. The position stays in range once any update was accepted. */
  lemma {:induction false} RunDifferencesSum(position: i32, bound: i32, ops: seq<Op>)
    requires bound > 0 && 0 <= position
    ensures RunReported(position, bound, ops) + RunUnreported(position, bound, ops)
            == RunPosition(position, bound, ops) - position
    ensures (forall i :: 0 <= i < |ops| ==> ops[i].absolute != 0) ==>
              RunReported(position, bound, ops) == RunPosition(position, bound, ops) - position
    ensures position < bound ==> InRange(RunPosition(position, bound, ops), bound)
    decreases |ops|
  {
    if ops != [] {
      var op := ops[0];
      if Updated(position, bound, op.absolute, op.request).Some? {
        AcceptedLandsInRange(position, bound, op.absolute, op.request);
      }
      if op.absolute != 0 {
        AbsoluteReportsDisplacement(position, bound, op.absolute, op.request);
      }
      RunDifferencesSum(After(position, bound, op), bound, ops[1..]);
    }
  }

  /** The request that a run of absolute updates accepts first, if any. */
  ghost function FirstAccepted(ops: seq<Op>): Option<i32> {
    if ops == [] then None else if ops[0].request >= 0 then Some(ops[0].request) else FirstAccepted(ops[1..])
  }

  /** From a negative position the first accepted absolute update reports nothing, so a run of them falls
      short by exactly that first displacement; with none accepted nothing moves and nothing is
      reported. */
  lemma {:induction false} NegativeStartReportsLess(position: i32, bound: i32, ops: seq<Op>)
    requires bound > 0 && position < 0
    requires forall i :: 0 <= i < |ops| ==> ops[i].absolute != 0
    ensures match FirstAccepted(ops)
            case None => RunReported(position, bound, ops) == 0 && RunPosition(position, bound, ops) == position
            case Some(request) =>
              RunReported(position, bound, ops) == RunPosition(position, bound, ops) - Min(request, bound - 1)
    decreases |ops|
  {
    if ops != [] {
      assert ops[0].absolute != 0;
      if ops[0].request >= 0 {
        AcceptedLandsInRange(position, bound, ops[0].absolute, ops[0].request);
        SignedInRange(bound - 1);
        RunDifferencesSum(After(position, bound, ops[0]), bound, ops[1..]);
      } else {
        NegativeStartReportsLess(position, bound, ops[1..]);
      }
    }
  }
}
