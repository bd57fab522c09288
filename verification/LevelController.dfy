/** The stream-buffer level controller in place: control words read and rewritten around callees that may
    themselves rewrite them. Every method does to the words what LevelModel says. */
module LevelController {
  import opened Words
  import opened LevelModel

  class Controller {
    const world: World
    var flags: Bits
    var inhibit: u32
    var requestedLevel: u32
    var baseLevel: u32
    var level: u32
    var inhibitByte: u8
    var events: seq<Event>

    constructor (world: World, control: Control)
      ensures this.world == world && View() == System(control, [])
    {
      this.world := world;
      flags, inhibit, requestedLevel := control.flags, control.inhibit, control.requested;
      baseLevel, level, inhibitByte := control.base, control.level, control.inhibitByte;
      events := [];
    }

    function Snapshot(): Control
      reads this
    {
      Control(flags, inhibit, requestedLevel, baseLevel, level, inhibitByte)
    }

    function View(): System
      reads this
    {
      System(Snapshot(), events)
    }

    /** A callee at work: it may leave any control words behind. */
    method Invoke(callee: (nat, Control) -> Answer, e: Event) returns (result: u32)
      modifies this
      ensures (View(), result) == Call(old(View()), callee, e)
    {
      var a := callee(|events|, Snapshot());
      flags, inhibit, requestedLevel := a.control.flags, a.control.inhibit, a.control.requested;
      baseLevel, level, inhibitByte := a.control.base, a.control.level, a.control.inhibitByte;
      events := events + [e];
      result := a.result;
    }

    /** A wait: back once the level word is at `target`. */
    method WaitFor(target: u32, e: Event) returns (result: u32)
      modifies this
      ensures (View(), result) == Waited(old(View()), world, target, e)
    {
      result := Invoke(world.settle, e);
      level := target;
    }

    /** The level-apply callee at work. */
    method ApplyLevel(target: u32) returns (result: u32)
      modifies this
      ensures (View(), result) == Applied(old(View()), world, target)
    {
      var w, n := world, |events|;
      result := Invoke((_, c) => w.apply(n, c, target), Apply(target));
    }

    /** `stream_buffer_transition_controller` */
    method Transition() returns (result: u32)
      modifies this
      ensures (View(), result) == LevelModel.Transition(old(View()), world)
    {
      if !(1 in flags || 2 in flags || 6 in flags || inhibit != 0) && inhibitByte == 0 {
        var gate := Invoke(world.gate, Gate);
        if gate == 0 {
          var _ := Invoke(world.dispatch, Dispatch);
          var history := Invoke(world.history, History);
          if history == 0 {
            var reloaded := flags;
            var chosen := baseLevel;
            if PENDING in reloaded {
              if requestedLevel <= chosen {
                chosen := requestedLevel;
              }
              var floor := Floor(reloaded);
              if chosen < floor {
                chosen := floor;
              }
            }
            if OVERRIDE in reloaded {
              chosen := if OVERRIDE_TO_ZERO in reloaded then 0 else 1;
            } else if FORCE_ZERO in reloaded {
              chosen := 0;
            }
            result := WaitFor(chosen, WaitEqual(chosen));
            return;
          }
        }
      }
      result := WaitFor(0, WaitZero);
    }

    /** `stream_buffer_transition_inhibit_raise` */
    method RaiseInhibit(requested: u32) returns (result: u32)
      modifies this
      ensures (View(), result) == Perform(old(View()), world, Raise(requested))
    {
      if inhibit < requested {
        inhibit := requested;
      }
      result := Transition();
    }

    /** `stream_buffer_refill_floor_request` */
    method RequestFloor() returns (result: u32)
      modifies this
      ensures (View(), result) == Perform(old(View()), world, FloorRequest)
    {
      requestedLevel := Floor(flags);
      result := Transition();
    }

    /** `stream_buffer_refill_level_advance`: reads the level word, writes the requested level. */
    method AdvanceLevel() returns (result: u32)
      modifies this
      ensures (View(), result) == Perform(old(View()), world, Advance)
    {
      NextLevelWraps(level);
      requestedLevel := if level == 3 then 3 else Wrap(level + 1);
      result := Transition();
    }

    /** `stream_buffer_request_flags_update` */
    method UpdateRequestFlags(enable: u32, mask: Bits)
      modifies this`flags
      ensures View() == Step(old(View()), world, UpdateFlags(enable, mask))
    {
      flags := if enable == 0 then flags - mask else flags + mask;
    }

    /** `stream_buffer_level_decrement` */
    method DecrementLevel() returns (result: u32)
      modifies this
      ensures (View(), result) == Perform(old(View()), world, Decrement)
    {
      if level == 0 {
        return 0;
      }
      var target := level - 1;
      result := ApplyLevel(target);
    }
  }
}
