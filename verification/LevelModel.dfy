/** The stream-buffer level controller on values: the request words, the callees it cannot see, and what
    holds over any run of raises, floor requests, advances, flag updates and decrements. This is the ARM
    form, in which the level word and the requested level are two words. */
module LevelModel {
  import opened Words

  /** The request-controller words, the shared level word, and the inhibit byte. */
  datatype Control = Control(
    flags: Bits,
    inhibit: u32,
    requested: u32,
    base: u32,
    level: u32,
    inhibitByte: u8)

  datatype Event = Gate | Dispatch | History | WaitEqual(target: u32) | WaitZero | Apply(target: u32)

  datatype Answer = Answer(control: Control, result: u32)

  /** The unported callees: each may rewrite the control words and answers a word. The first argument is
      the number of calls so far, so no two calls need agree. `settle` is what else happens while a wait
      spins; `apply` is the level-apply callee, whose last argument is the level it is given. */
  datatype World = World(
    gate: (nat, Control) -> Answer,
    dispatch: (nat, Control) -> Answer,
    history: (nat, Control) -> Answer,
    settle: (nat, Control) -> Answer,
    apply: (nat, Control, u32) -> Answer)

  datatype System = System(control: Control, events: seq<Event>)

  // ---------------------------------------------------------------------------------------------
  // Flags
  // ---------------------------------------------------------------------------------------------

  const PENDING: bv5 := 0
  const OVERRIDE: bv5 := 3
  const OVERRIDE_TO_ZERO: bv5 := 4
  const FORCE_ZERO: bv5 := 5
  const FLOOR_DISABLE: bv5 := 7

  /** The bit numbers stand for the masks the code tests, and the floor is its shifted complement. */
  lemma FlagMasks(w: bv32)
    ensures w & 0x46 != 0 <==> 1 in BitsOf(w) || 2 in BitsOf(w) || 6 in BitsOf(w)
    ensures w & 0x01 != 0 <==> PENDING in BitsOf(w)
    ensures w & 0x08 != 0 <==> OVERRIDE in BitsOf(w)
    ensures w & 0x10 != 0 <==> OVERRIDE_TO_ZERO in BitsOf(w)
    ensures w & 0x20 != 0 <==> FORCE_ZERO in BitsOf(w)
    ensures 1 & !(w >> 7) == if FLOOR_DISABLE in BitsOf(w) then 0 else 1
  {
  }

  predicate Blocked(c: Control) {
    1 in c.flags || 2 in c.flags || 6 in c.flags || c.inhibit != 0 || c.inhibitByte != 0
  }

  function Floor(flags: Bits): u32 {
    if FLOOR_DISABLE in flags then 0 else 1
  }

  function ChosenLevel(c: Control): u32 {
    if OVERRIDE in c.flags then if OVERRIDE_TO_ZERO in c.flags then 0 else 1
    else if FORCE_ZERO in c.flags then 0
    else if PENDING in c.flags then Max(Min(c.base, c.requested), Floor(c.flags))
    else c.base
  }

  // ---------------------------------------------------------------------------------------------
  // Operations
  // ---------------------------------------------------------------------------------------------

  function Call(s: System, callee: (nat, Control) -> Answer, e: Event): (System, u32) {
    var a := callee(|s.events|, s.control);
    (System(a.control, s.events + [e]), a.result)
  }

  /** A wait returns once the level word is at its target. */
  function Waited(s: System, w: World, target: u32, e: Event): (System, u32) {
    var (after, result) := Call(s, w.settle, e);
    (after.(control := after.control.(level := target)), result)
  }

  /** The level-apply callee, whatever it does. */
  function Applied(s: System, w: World, target: u32): (System, u32) {
    var a := w.apply(|s.events|, s.control, target);
    (System(a.control, s.events + [Apply(target)]), a.result)
  }

  /** `stream_buffer_transition_controller` */
  function Transition(s: System, w: World): (System, u32) {
    if Blocked(s.control) then Waited(s, w, 0, WaitZero)
    else
      var (g, gate) := Call(s, w.gate, Gate);
      if gate != 0 then Waited(g, w, 0, WaitZero)
      else
        var (d, _) := Call(g, w.dispatch, Dispatch);
        var (h, history) := Call(d, w.history, History);
        if history != 0 then Waited(h, w, 0, WaitZero)
        else Waited(h, w, ChosenLevel(h.control), WaitEqual(ChosenLevel(h.control)))
  }

  const TOP: u32 := 0xffff_ffff

  /** What an advance asks for: 3 is held, the top of the word wraps. */
  function NextLevel(level: u32): u32 {
    if level == 3 then 3 else if level == TOP then 0 else level + 1
  }

  lemma NextLevelWraps(level: u32)
    ensures NextLevel(level) == if level == 3 then 3 else Wrap(level + 1)
  {
  }

  datatype Op = Raise(inhibit: u32) | FloorRequest | Advance | UpdateFlags(enable: u32, mask: Bits) | Decrement

  /** An operation that goes through the controller. */
  predicate Enters(op: Op) {
    op.Raise? || op.FloorRequest? || op.Advance?
  }

  /** What an operation writes before the controller, if any, is entered. */
  function Prepared(c: Control, op: Op): Control {
    match op
    case Raise(inhibit) => if c.inhibit < inhibit then c.(inhibit := inhibit) else c
    case FloorRequest => c.(requested := Floor(c.flags))
    case Advance => c.(requested := NextLevel(c.level))
    case UpdateFlags(enable, mask) => c.(flags := if enable == 0 then c.flags - mask else c.flags + mask)
    case Decrement => c
  }

  /** An operation's effect and its answer; a flag update and the decrement of a zero level answer 0. */
  function Perform(s: System, w: World, op: Op): (System, u32) {
    var p := s.(control := Prepared(s.control, op));
    if Enters(op) then Transition(p, w)
    else if op.Decrement? && s.control.level != 0 then
      Applied(p, w, s.control.level - 1)
    else (p, 0)
  }

  function Step(s: System, w: World, op: Op): System {
    Perform(s, w, op).0
  }

  function Run(s: System, w: World, ops: seq<Op>): System
    decreases |ops|
  {
    if ops == [] then s else Run(Step(s, w, ops[0]), w, ops[1..])
  }

  // ---------------------------------------------------------------------------------------------
  // Which level
  // ---------------------------------------------------------------------------------------------

  /** A request moves the level but never past the base, the floor aside; and a floor request, unless
      overridden, selects exactly the floor whatever the base. */
  lemma RequestBounds(c: Control)
    requires OVERRIDE !in c.flags && FORCE_ZERO !in c.flags && PENDING in c.flags
    ensures Floor(c.flags) <= ChosenLevel(c) <= Max(c.base, Floor(c.flags))
    ensures ChosenLevel(Prepared(c, FloorRequest)) == Floor(c.flags)
  {
  }

  /** What an operation writes before anything is called: one word each, and which. */
  lemma PreparedWords(c: Control, word: bv32, inhibit: u32)
    requires c.flags == BitsOf(word)
    ensures Prepared(c, Raise(inhibit)) == c.(inhibit := Max(c.inhibit, inhibit))
    ensures Prepared(c, FloorRequest) == c.(requested := if word & 0x80 != 0 then 0 else 1)
    ensures Prepared(c, Advance) == c.(requested := if c.level == 3 then 3 else (c.level + 1) % 0x1_0000_0000)
    ensures Prepared(c, Decrement) == c
  {
    TwoBits(word);
  }

  /** A decrement of a zero level does nothing and answers zero; any other is one call of the apply callee
      with one level less, whose answer and words it leaves. */
  lemma DecrementApplies(s: System, w: World)
    ensures s.control.level == 0 ==> Perform(s, w, Decrement) == (s, 0)
    ensures s.control.level > 0 ==>
              var a := w.apply(|s.events|, s.control, s.control.level - 1);
              Perform(s, w, Decrement) == (System(a.control, s.events + [Apply(s.control.level - 1)]), a.result)
  {
  }

  /** A flag update moves the masked bits to one side and no others, and clearing takes setting back
      exactly when none of the masked bits was up before. */
  lemma UpdateFlagsBits(c: Control, enable: u32, mask: Bits, b: bv5)
    ensures b in Prepared(c, UpdateFlags(enable, mask)).flags <==> if b in mask then enable != 0 else b in c.flags
    ensures var back := Prepared(Prepared(c, UpdateFlags(1, mask)), UpdateFlags(0, mask));
            (forall x: bv5 :: x in back.flags <==> x in c.flags) <==> (forall x: bv5 :: x in mask ==> x !in c.flags)
  {
    var back := Prepared(Prepared(c, UpdateFlags(1, mask)), UpdateFlags(0, mask));
    assert forall x: bv5 :: x in back.flags <==> x in c.flags && x !in mask;
  }

  /** The level chosen, by the bits of the flags word: an override picks 0 or 1, failing that force-zero
      picks 0, failing that a pending request is clamped between floor and base, and with none of them it
      is the base. */
  lemma LevelByFlags(c: Control, word: bv32)
    requires c.flags == BitsOf(word)
    ensures word & 0x08 != 0 && word & 0x10 != 0 ==> ChosenLevel(c) == 0
    ensures word & 0x08 != 0 && word & 0x10 == 0 ==> ChosenLevel(c) == 1
    ensures word & 0x08 == 0 && word & 0x20 != 0 ==> ChosenLevel(c) == 0
    ensures word & 0x28 == 0 && word & 0x01 == 0 ==> ChosenLevel(c) == c.base
    ensures word & 0x28 == 0 && word & 0x01 != 0 ==>
              var least := if word & 0x80 != 0 then 0 else 1;
              ChosenLevel(c) == Max(least, Min(c.base, c.requested))
    ensures Floor(c.flags) == if word & 0x80 != 0 then 0 else 1
  {
    FlagMasks(word);
    TwoBits(word);
  }

  lemma TwoBits(word: bv32)
    ensures word & 0x28 == 0 <==> word & 0x08 == 0 && word & 0x20 == 0
    ensures word & 0x80 != 0 <==> FLOOR_DISABLE in BitsOf(word)
  {
  }

  // ---------------------------------------------------------------------------------------------
  // Gating
  // ---------------------------------------------------------------------------------------------

  /** What lets an entry through to the gate: no inhibiting flag, inhibit word or inhibit byte. */
  predicate AllClear(c: Control, word: bv32) {
    word & 0x46 == 0 && c.inhibit == 0 && c.inhibitByte == 0
  }

  /** Unless all is clear, an entry is one drain wait and nothing else. */
  lemma InhibitedDrains(s: System, w: World, word: bv32)
    requires s.control.flags == BitsOf(word)
    ensures !AllClear(s.control, word) ==>
              var (s', result) := Transition(s, w);
              && s'.events == s.events + [WaitZero]
              && s'.control == w.settle(|s.events|, s.control).control.(level := 0)
              && result == w.settle(|s.events|, s.control).result
    ensures AllClear(s.control, word) ==> Gate in Transition(s, w).0.events[|s.events|..]
  {
    FlagMasks(word);
    if AllClear(s.control, word) {
      TransitionShape(s, w);
      AnswersDecide(s, w);
    }
  }

  /** Past that, the answers decide: a nonzero answer of the gate or of the history check ends in a drain at
      once, and two zeros in a wait for the level chosen from what the callees leave. */
  lemma AnswersDecide(s: System, w: World)
    requires !Blocked(s.control)
    ensures var g := w.gate(|s.events|, s.control);
            var d := w.dispatch(|s.events| + 1, g.control);
            var h := w.history(|s.events| + 2, d.control);
            var (s', result) := Transition(s, w);
            if g.result != 0 then
              && s'.events == s.events + [Gate, WaitZero]
              && s'.control == w.settle(|s.events| + 1, g.control).control.(level := 0)
              && result == w.settle(|s.events| + 1, g.control).result
            else if h.result != 0 then
              && s'.events == s.events + [Gate, Dispatch, History, WaitZero]
              && s'.control == w.settle(|s.events| + 3, h.control).control.(level := 0)
              && result == w.settle(|s.events| + 3, h.control).result
            else
              && s'.events == s.events + [Gate, Dispatch, History, WaitEqual(ChosenLevel(h.control))]
              && s'.control == w.settle(|s.events| + 3, h.control).control.(level := ChosenLevel(h.control))
              && result == w.settle(|s.events| + 3, h.control).result
  {
    var (g, gate) := Call(s, w.gate, Gate);
    var (d, _) := Call(g, w.dispatch, Dispatch);
    var (h, _) := Call(d, w.history, History);
    assert g.events + [WaitZero] == s.events + [Gate, WaitZero];
    assert h.events == s.events + [Gate, Dispatch, History];
    assert forall e :: h.events + [e] == s.events + [Gate, Dispatch, History, e];
  }

  /** Every entry into the controller ends in exactly one wait, its last call: an equal-wait only after
      gate, dispatch and history, a drain otherwise; and the level word is at the target it names. */
  lemma TransitionShape(s: System, w: World)
    ensures var s' := Transition(s, w).0;
            || (s'.events == s.events + [WaitZero] && s'.control.level == 0)
            || (s'.events == s.events + [Gate, WaitZero] && s'.control.level == 0 && !Blocked(s.control))
            || (s'.events == s.events + [Gate, Dispatch, History, WaitZero]
                && s'.control.level == 0 && !Blocked(s.control))
            || (s'.events == s.events + [Gate, Dispatch, History, WaitEqual(s'.control.level)]
                && !Blocked(s.control))
  {
    if !Blocked(s.control) {
      var (g, gate) := Call(s, w.gate, Gate);
      assert g.events + [WaitZero] == s.events + [Gate, WaitZero];
      var (d, _) := Call(g, w.dispatch, Dispatch);
      var (h, _) := Call(d, w.history, History);
      assert h.events == s.events + [Gate, Dispatch, History];
      assert forall e :: h.events + [e] == s.events + [Gate, Dispatch, History, e];
    }
  }

  /** No callee touches the inhibit word. */
  ghost predicate LeavesInhibit(w: World) {
    && (forall k: nat, c: Control ::
          && w.gate(k, c).control.inhibit == c.inhibit
          && w.dispatch(k, c).control.inhibit == c.inhibit
          && w.history(k, c).control.inhibit == c.inhibit
          && w.settle(k, c).control.inhibit == c.inhibit)
    && (forall k: nat, c: Control, target: u32 :: w.apply(k, c, target).control.inhibit == c.inhibit)
  }

  lemma StepLeavesInhibit(s: System, w: World, op: Op)
    requires LeavesInhibit(w)
    ensures Step(s, w, op).control.inhibit == Prepared(s.control, op).inhibit
  {
  }

  /** The greatest of `from` and every raise in `ops`. */
  ghost function Highest(from: u32, ops: seq<Op>): u32
    decreases |ops|
  {
    if ops == [] then from
    else Highest(if ops[0].Raise? then Max(from, ops[0].inhibit) else from, ops[1..])
  }

  /** The inhibit word is the greatest of its first value and every raise. */
  lemma {:induction false} RunRaisesInhibit(s: System, w: World, ops: seq<Op>)
    requires LeavesInhibit(w)
    ensures Run(s, w, ops).control.inhibit == Highest(s.control.inhibit, ops)
    decreases |ops|
  {
    if ops != [] {
      StepLeavesInhibit(s, w, ops[0]);
      RunRaisesInhibit(Step(s, w, ops[0]), w, ops[1..]);
    }
  }

  /** `Highest` is a maximum: it bounds every raise and is one of the values. */
  lemma {:induction false} HighestIsMaximum(from: u32, ops: seq<Op>)
    ensures from <= Highest(from, ops)
    ensures forall i :: 0 <= i < |ops| && ops[i].Raise? ==> ops[i].inhibit <= Highest(from, ops)
    ensures Highest(from, ops) == from || exists i :: 0 <= i < |ops| && ops[i] == Raise(Highest(from, ops))
    decreases |ops|
  {
    if ops != [] {
      var from' := if ops[0].Raise? then Max(from, ops[0].inhibit) else from;
      HighestIsMaximum(from', ops[1..]);
      forall i | 0 <= i < |ops| && ops[i].Raise?
        ensures ops[i].inhibit <= Highest(from, ops)
      {
        if i > 0 {
          assert ops[1..][i - 1] == ops[i];
        }
      }
      if Highest(from, ops) != from && Highest(from, ops) != from' {
        var i :| 0 <= i < |ops| - 1 && ops[1..][i] == Raise(Highest(from, ops));
        assert ops[i + 1] == Raise(Highest(from, ops));
      }
    }
  }

  /** Nothing that happens during a wait or a level-apply clears a block. */
  ghost predicate KeepsBlocked(w: World) {
    && (forall k: nat, c: Control, level: u32 :: Blocked(c) ==> Blocked(w.settle(k, c).control.(level := level)))
    && (forall k: nat, c: Control, target: u32 :: Blocked(c) ==> Blocked(w.apply(k, c, target).control))
  }

  /** Flag updates that do not clear an inhibiting bit. */
  predicate Harmless(op: Op) {
    op.UpdateFlags? && op.enable == 0 ==> 1 !in op.mask && 2 !in op.mask && 6 !in op.mask
  }

  /** The entries into the controller among `ops`. */
  function Entries(ops: seq<Op>): nat {
    if ops == [] then 0 else (if Enters(ops[0]) then 1 else 0) + Entries(ops[1..])
  }

  function CountDrains(events: seq<Event>): nat {
    if events == [] then 0 else CountDrains(events[..|events| - 1]) + if events[|events| - 1] == WaitZero then 1 else 0
  }

  ghost predicate OnlyDrainsFrom(events: seq<Event>, from: nat) {
    forall i :: from <= i < |events| ==> events[i].WaitZero? || events[i].Apply?
  }

  lemma CountOneMore(events: seq<Event>, e: Event)
    ensures CountDrains(events + [e]) == CountDrains(events) + if e == WaitZero then 1 else 0
  {
    assert (events + [e])[..|events|] == events;
  }

  lemma BlockedStep(s: System, w: World, op: Op, from: nat)
    requires Blocked(s.control) && KeepsBlocked(w) && Harmless(op)
    requires from <= |s.events| && OnlyDrainsFrom(s.events, from)
    ensures var s' := Step(s, w, op);
            && Blocked(s'.control) && from <= |s'.events| && OnlyDrainsFrom(s'.events, from)
            && CountDrains(s'.events) == CountDrains(s.events) + if Enters(op) then 1 else 0
  {
    var c := Prepared(s.control, op);
    assert Blocked(c);
    var s' := Step(s, w, op);
    if Enters(op) {
      assert s'.control == w.settle(|s.events|, c).control.(level := 0);
      assert s'.events == s.events + [WaitZero];
      CountOneMore(s.events, WaitZero);
    } else if op.Decrement? && s.control.level != 0 {
      var target := s.control.level - 1;
      assert s'.control == w.apply(|s.events|, c, target).control;
      assert s'.events == s.events + [Apply(target)];
      CountOneMore(s.events, Apply(target));
    } else {
      assert s' == s.(control := c);
    }
  }

  /** Once blocked, and while nothing lifts the block, no operation calls gate, dispatch or history, and
      each entry into the controller makes exactly one drain wait. */
  lemma {:induction false} RunStaysBlocked(s: System, w: World, ops: seq<Op>, from: nat)
    requires Blocked(s.control) && KeepsBlocked(w)
    requires forall i :: 0 <= i < |ops| ==> Harmless(ops[i])
    requires from <= |s.events| && OnlyDrainsFrom(s.events, from)
    ensures var s' := Run(s, w, ops);
            && Blocked(s'.control) && OnlyDrainsFrom(s'.events, from)
            && CountDrains(s'.events) == CountDrains(s.events) + Entries(ops)
    decreases |ops|
  {
    if ops != [] {
      assert Harmless(ops[0]);
      BlockedStep(s, w, ops[0], from);
      RunStaysBlocked(Step(s, w, ops[0]), w, ops[1..], from);
    }
  }

  /** No callee that runs while inhibited clears the inhibit word. */
  ghost predicate KeepsInhibited(w: World) {
    && (forall k: nat, c: Control :: c.inhibit != 0 ==> w.settle(k, c).control.inhibit != 0)
    && (forall k: nat, c: Control, target: u32 :: c.inhibit != 0 ==> w.apply(k, c, target).control.inhibit != 0)
  }

  lemma InhibitedStep(s: System, w: World, op: Op, from: nat)
    requires s.control.inhibit != 0 && KeepsInhibited(w)
    requires from <= |s.events| && OnlyDrainsFrom(s.events, from)
    ensures var s' := Step(s, w, op);
            && s'.control.inhibit != 0 && from <= |s'.events| && OnlyDrainsFrom(s'.events, from)
  {
  }

  lemma {:induction false} RunStaysInhibited(s: System, w: World, ops: seq<Op>, from: nat)
    requires s.control.inhibit != 0 && KeepsInhibited(w)
    requires from <= |s.events| && OnlyDrainsFrom(s.events, from)
    ensures var s' := Run(s, w, ops); s'.control.inhibit != 0 && OnlyDrainsFrom(s'.events, from)
    decreases |ops|
  {
    if ops != [] {
      InhibitedStep(s, w, ops[0], from);
      RunStaysInhibited(Step(s, w, ops[0]), w, ops[1..], from);
    }
  }

  /** After a raise of a positive word nothing is gated, dispatched or checked any more, whatever flags are
      updated and whatever is asked: neither by the raise itself nor over any run behind it. */
  lemma RaiseInhibits(s: System, w: World, inhibit: u32, ops: seq<Op>)
    requires inhibit > 0 && KeepsInhibited(w)
    ensures var events := Run(Step(s, w, Raise(inhibit)), w, ops).events;
            forall i :: |s.events| <= i < |events| ==> !events[i].Gate? && !events[i].Dispatch? && !events[i].History?
  {
    var p := s.(control := Prepared(s.control, Raise(inhibit)));
    assert Step(s, w, Raise(inhibit)) == Transition(p, w).0;
    assert OnlyDrainsFrom(s.events, |s.events|);
    RunStaysInhibited(Step(s, w, Raise(inhibit)), w, ops, |s.events|);
  }

  // ---------------------------------------------------------------------------------------------
  // Convergence
  // ---------------------------------------------------------------------------------------------

  /** The words a quiet callee leaves alone. */
  ghost predicate SameWords(c: Control, c': Control) {
    c'.flags == c.flags && c'.inhibit == c.inhibit && c'.base == c.base && c'.inhibitByte == c.inhibitByte
  }

  /** Clear gates and stable flags and base. The requested word need only survive until it is read. */
  ghost predicate Quiet(w: World) {
    forall k: nat, c: Control ::
      && SameWords(c, w.gate(k, c).control) && w.gate(k, c).control.requested == c.requested
      && SameWords(c, w.dispatch(k, c).control) && w.dispatch(k, c).control.requested == c.requested
      && SameWords(c, w.history(k, c).control) && w.history(k, c).control.requested == c.requested
      && SameWords(c, w.settle(k, c).control)
      && w.gate(k, c).result == 0 && w.history(k, c).result == 0
  }

  ghost predicate Ready(c: Control) {
    PENDING in c.flags && OVERRIDE !in c.flags && FORCE_ZERO !in c.flags && !Blocked(c)
  }

  /** One advance of the level alone. */
  function LevelStep(level: u32, base: u32, floor: u32): u32 {
    Max(Min(base, NextLevel(level)), floor)
  }

  function LevelAfter(level: u32, base: u32, floor: u32, k: nat): u32 {
    if k == 0 then level else LevelStep(LevelAfter(level, base, floor, k - 1), base, floor)
  }

  function Advances(k: nat): seq<Op> {
    seq(k, _ => Advance)
  }

  lemma AdvanceStep(s: System, w: World)
    requires Ready(s.control) && Quiet(w)
    ensures var s' := Step(s, w, Advance);
            && s'.control.level == LevelStep(s.control.level, s.control.base, Floor(s.control.flags))
            && SameWords(s.control, s'.control)
            && s'.events == s.events + [Gate, Dispatch, History, WaitEqual(s'.control.level)]
  {
    var p := s.(control := Prepared(s.control, Advance));
    var (g, gate) := Call(p, w.gate, Gate);
    var (d, _) := Call(g, w.dispatch, Dispatch);
    var (h, _) := Call(d, w.history, History);
    assert SameWords(p.control, g.control) && SameWords(g.control, d.control) && SameWords(d.control, h.control);
    assert h.control.requested == p.control.requested;
    assert forall e :: h.events + [e] == s.events + [Gate, Dispatch, History, e];
  }

  /** A floor request, seen from outside: with clear gates and quiet callees the level goes to exactly the
      floor, whatever it was and whatever the base. */
  lemma FloorStep(s: System, w: World)
    requires Ready(s.control) && Quiet(w)
    ensures var s' := Step(s, w, FloorRequest);
            && s'.control.level == Floor(s.control.flags)
            && SameWords(s.control, s'.control)
            && s'.events == s.events + [Gate, Dispatch, History, WaitEqual(Floor(s.control.flags))]
  {
    var p := s.(control := Prepared(s.control, FloorRequest));
    var (g, gate) := Call(p, w.gate, Gate);
    var (d, _) := Call(g, w.dispatch, Dispatch);
    var (h, _) := Call(d, w.history, History);
    assert SameWords(p.control, g.control) && SameWords(g.control, d.control) && SameWords(d.control, h.control);
    assert h.control.requested == p.control.requested;
    assert forall e :: h.events + [e] == s.events + [Gate, Dispatch, History, e];
  }

  /** No wait past the first `from` events is for more than `bound`. */
  ghost predicate WaitsWithin(events: seq<Event>, from: nat, bound: u32) {
    forall i :: from <= i < |events| && events[i].WaitEqual? ==> events[i].target <= bound
  }

  lemma WaitsOnward(before: seq<Event>, between: seq<Event>, after: seq<Event>, level: u32, bound: u32)
    requires between == before + [Gate, Dispatch, History, WaitEqual(level)] && level <= bound
    requires between <= after && WaitsWithin(after, |between|, bound)
    ensures before <= after && WaitsWithin(after, |before|, bound)
  {
    assert before == between[..|before|];
    forall i | |before| <= i < |after| && after[i].WaitEqual?
      ensures after[i].target <= bound
    {
      assert i < |between| ==> after[i] == between[i];
    }
  }

  /** A run of advances, seen from outside: the level follows `LevelAfter`, and each level waited for on
      the way stays within the base, the floor aside. */
  lemma {:induction false} RunAdvances(s: System, w: World, k: nat)
    requires Ready(s.control) && Quiet(w)
    ensures var s', floor := Run(s, w, Advances(k)), Floor(s.control.flags);
            && s'.control.level == LevelAfter(s.control.level, s.control.base, floor, k)
            && WaitsWithin(s'.events, |s.events|, Max(s.control.base, floor))
            && |s'.events| == |s.events| + 4 * k && s.events <= s'.events
    decreases k
  {
    if k > 0 {
      var s1 := Step(s, w, Advance);
      AdvanceStep(s, w);
      assert Advances(k)[1..] == Advances(k - 1);
      assert Ready(s1.control) && Run(s, w, Advances(k)) == Run(s1, w, Advances(k - 1));
      RunAdvances(s1, w, k - 1);
      WaitsOnward(s.events, s1.events, Run(s1, w, Advances(k - 1)).events, s1.control.level,
                  Max(s.control.base, Floor(s.control.flags)));
      LevelAfterFirst(s.control.level, s.control.base, Floor(s.control.flags), k);
    }
  }

  lemma {:induction false} LevelAfterFirst(level: u32, base: u32, floor: u32, k: nat)
    requires k > 0
    ensures LevelAfter(level, base, floor, k) == LevelAfter(LevelStep(level, base, floor), base, floor, k - 1)
  {
    if k > 1 {
      LevelAfterFirst(level, base, floor, k - 1);
    }
  }

  /** From a level of at most 3, after any positive number of advances. */
  lemma {:induction false} ClosedForm(level: u32, base: u32, floor: u32, k: nat)
    requires level <= 3 && floor <= 1 && k > 0
    ensures LevelAfter(level, base, floor, k) == Max(Min(base, Min(3, level + k)), floor)
  {
    if k > 1 {
      ClosedForm(level, base, floor, k - 1);
    }
  }

  /** Three advances reach the target and every later one stays there. */
  lemma ThreeAdvancesSuffice(level: u32, base: u32, floor: u32, k: nat)
    requires level <= 3 && floor <= 1 && k >= 3
    ensures LevelAfter(level, base, floor, k) == Min(3, Max(base, floor))
  {
    ClosedForm(level, base, floor, k);
  }

  /** From a level above 3 the hold at 3 is out of reach unless the base is low or the word wraps: the
      level climbs one by one to the base and stays there. */
  lemma {:induction false} ClimbsToBase(level: u32, base: u32, floor: u32, k: nat)
    requires 4 <= level < TOP && 4 <= base && floor <= 1 && k > 0
    requires base < TOP || level + k <= TOP
    ensures LevelAfter(level, base, floor, k) == Min(base, level + k)
  {
    if k > 1 {
      ClimbsToBase(level, base, floor, k - 1);
    }
  }

  /** With the base at the top of the word the climb goes over it, back to the floor, and on to 3. */
  lemma {:induction false} ClimbsOver(level: u32, floor: u32, k: nat)
    requires 4 <= level && floor <= 1 && level + k > TOP
    ensures LevelAfter(level, TOP, floor, k) == Min(3, floor + (level + k - TWO_32))
  {
    if level + k == TWO_32 {
      if k > 1 {
        ClimbsToBase(level, TOP, floor, k - 1);
      }
    } else {
      ClimbsOver(level, floor, k - 1);
    }
  }

  /** From which levels, and in how many steps beyond three, advances reach min(3, max(base, floor)):
      for every starting level, base and floor. */
  lemma ConvergesExactlyWhen(level: u32, base: u32, floor: u32, k: nat)
    requires floor <= 1 && k >= 4
    ensures LevelAfter(level, base, floor, k) == Min(3, Max(base, floor)) <==>
            level <= 3 || base <= 3 || level == TOP || (base == TOP && level + k >= TWO_32 + 3 - floor)
  {
    if level <= 3 {
      ClosedForm(level, base, floor, k);
    } else if base <= 3 || level == TOP {
      LevelAfterFirst(level, base, floor, k);
      assert LevelStep(level, base, floor) <= 3;
      ClosedForm(LevelStep(level, base, floor), base, floor, k - 1);
    } else if base == TOP && level + k > TOP {
      ClimbsOver(level, floor, k);
    } else {
      ClimbsToBase(level, base, floor, k);
    }
  }

  // ---------------------------------------------------------------------------------------------
  // Decrement
  // ---------------------------------------------------------------------------------------------

  /** Called with one level less, the level-apply callee publishes what it is given. */
  ghost predicate PublishesAt(w: World, k: nat, c: Control) {
    c.level > 0 ==> w.apply(k, c, c.level - 1).control.level == c.level - 1
  }

  ghost predicate Publishes(w: World) {
    forall k: nat, c: Control :: PublishesAt(w, k, c)
  }

  ghost function Decremented(s: System, w: World, k: nat): System
    decreases k
  {
    if k == 0 then s else Decremented(Step(s, w, Decrement), w, k - 1)
  }

  lemma {:induction false} DecrementedIsRun(s: System, w: World, k: nat)
    ensures Decremented(s, w, k) == Run(s, w, seq(k, _ => Decrement))
    decreases k
  {
    if k > 0 {
      assert seq(k, _ => Decrement)[1..] == seq(k - 1, _ => Decrement);
      DecrementedIsRun(Step(s, w, Decrement), w, k - 1);
    }
  }

  /** k decrements lower the level by k, but not below zero, with one apply for each step down. */
  ghost predicate Lowers(s: System, w: World, k: nat) {
    var s' := Decremented(s, w, k);
    && s'.control.level == Max(0, s.control.level - k)
    && |s'.events| == |s.events| + Min(k, s.control.level)
  }

  lemma {:induction false} DecrementsReachZero(s: System, w: World, k: nat)
    requires Publishes(w)
    ensures Lowers(s, w, k)
    decreases k
  {
    if k > 0 {
      assert PublishesAt(w, |s.events|, s.control);
      DecrementsReachZero(Step(s, w, Decrement), w, k - 1);
    }
  }

  /** Any number of decrements does so from every state exactly when the callee publishes its level. */
  lemma DecrementsReachZeroExactlyWhen(w: World)
    ensures (forall s: System, k: nat :: Lowers(s, w, k)) <==> Publishes(w)
  {
    if Publishes(w) {
      forall s: System, k: nat
        ensures Lowers(s, w, k)
      {
        DecrementsReachZero(s, w, k);
      }
    } else {
      var k: nat, c: Control :| !PublishesAt(w, k, c);
      var s := System(c, seq(k, _ => Gate));
      assert Decremented(s, w, 1) == Decremented(Step(s, w, Decrement), w, 0);
      assert !Lowers(s, w, 1);
    }
  }
}
