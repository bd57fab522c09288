/** The app-screen position update: a delta when the screen's active position is the cached one and the
    handle's object allows it, the absolute position otherwise, and silence for a delta of zero. */
module ScreenPosition {
  import opened Words

  /** The nullable handle, as its two reads find it: null at the first, or at the second an object that
      answers this limit. */
  datatype Handle = Null | Object(limit: u32)

  datatype Message = Delta(step: u32) | Absolute(target: u32)

  /** What an update sends, if anything. */
  function Sent(active: u32, cached: u32, handle: Handle, request: u32): Option<Message> {
    if active == cached && handle.Object? && handle.limit > cached then
      if request == cached then None else Some(Delta(Wrap(request - cached)))
    else Some(Absolute(request))
  }

  /** A receiver reads mode 0 as a wrapping step and mode 1 as a position. */
  function Received(position: u32, message: Option<Message>): u32 {
    match message
    case None => position
    case Some(Delta(step)) => Wrap(position + step)
    case Some(Absolute(target)) => target
  }

  class Receiver {
    var position: u32
    var messages: seq<Message>

    constructor (position: u32)
      ensures this.position == position && messages == []
    {
      this.position, messages := position, [];
    }

    /** The mode-selected setter. */
    method Set(mode: u32, position: u32) returns (result: u32)
      requires mode <= 1
      modifies this
      ensures var m := if mode == 0 then Delta(position) else Absolute(position);
              messages == old(messages) + [m] && this.position == Received(old(this.position), Some(m))
      ensures result == this.position
    {
      if mode == 0 {
        this.position := Wrap(this.position as int + position);
        messages := messages + [Delta(position)];
      } else {
        this.position := position;
        messages := messages + [Absolute(position)];
      }
      result := this.position;
    }
  }

  class Screen {
    const receiver: Receiver
    var cached: u32

    constructor (receiver: Receiver, cached: u32)
      ensures this.receiver == receiver && this.cached == cached
    {
      this.receiver, this.cached := receiver, cached;
    }

    /** `app_screen_update_position`. `active` is what the screen reports as its position, which need not
        be where the receiver is. */
    method UpdatePosition(active: u32, handle: Handle, request: u32) returns (result: u32)
      modifies this, receiver
      ensures cached == request
      ensures var m := Sent(active, old(cached), handle, request);
              && receiver.position == Received(old(receiver.position), m)
              && receiver.messages == old(receiver.messages) + (if m.Some? then [m.value] else [])
              && result == if m.Some? then receiver.position else 0
    {
      var mode, position := 1, request;
      if active == cached && handle.Object? {
        if handle.limit > cached {
          DeltaZero(request, cached);
          mode, position := 0, Wrap(request as int - cached);
        }
      }
      cached := request;
      if mode != 0 || position != 0 {
        result := receiver.Set(mode, position);
      } else {
        result := 0;
      }
    }
  }

  // ---------------------------------------------------------------------------------------------
  // Agreement
  // ---------------------------------------------------------------------------------------------

  /** What goes out: a step exactly when the active position is the cached one, the handle is not null, its
      limit exceeds the cached position and the request is elsewhere; nothing when it is not elsewhere;
      and the request as a position in all other cases. */
  lemma SendsExactlyWhen(active: u32, cached: u32, handle: Handle, request: u32)
    ensures var steps := active == cached && handle != Null && handle.limit > cached;
            && (Sent(active, cached, handle, request) == None <==> steps && request == cached)
            && (Sent(active, cached, handle, request) == Some(Absolute(request)) <==> !steps)
            && (steps && request > cached ==> Sent(active, cached, handle, request) == Some(Delta(request - cached)))
            && (steps && request < cached ==>
                  Sent(active, cached, handle, request) == Some(Delta(0x1_0000_0000 - (cached - request))))
  {
    DeltaZero(request, cached);
  }

  lemma DeltaZero(request: u32, cached: u32)
    ensures Wrap(request - cached) == if request >= cached then request - cached else request - cached + TWO_32
    ensures Wrap(request - cached) == 0 <==> request == cached
  {
  }

  lemma DeltaLands(position: u32, request: u32, cached: u32)
    ensures Wrap(position + Wrap(request - cached)) == request <==> position == cached
  {
    DeltaZero(request, cached);
    WrapOnce(position + Wrap(request - cached));
  }

  /** Where a receiver ends up: at the request exactly when it got an absolute position or was at the
      cached one, the suppressed send included. */
  lemma LandsExactlyWhen(receiver: u32, active: u32, cached: u32, handle: Handle, request: u32)
    ensures var m := Sent(active, cached, handle, request);
            Received(receiver, m) == request <==> (m.Some? && m.value.Absolute?) || receiver == cached
  {
    DeltaLands(receiver, request, cached);
  }

  /** A receiver that is where the screen reports it ends exactly at the request, for every cached word,
      handle and limit. */
  lemma ReporterLands(active: u32, cached: u32, handle: Handle, request: u32)
    ensures Received(active, Sent(active, cached, handle, request)) == request
  {
    LandsExactlyWhen(active, active, cached, handle, request);
  }

  /** `Moved` is the receiver moving by itself between updates. */
  datatype Op = Update(handle: Handle, request: u32) | Moved(target: u32)

  datatype State = State(position: u32, cached: u32, sent: nat)

  ghost function Step(s: State, op: Op): State {
    match op
    case Update(handle, request) =>
      var m := Sent(s.position, s.cached, handle, request);
      State(Received(s.position, m), request, s.sent + if m.Some? then 1 else 0)
    case Moved(target) => s.(position := target)
  }

  ghost function Run(s: State, ops: seq<Op>): State {
    if ops == [] then s else Step(Run(s, ops[..|ops| - 1]), ops[|ops| - 1])
  }

  /** The last position anyone asked for. */
  ghost function LastTarget(from: u32, ops: seq<Op>): u32 {
    if ops == [] then from
    else match ops[|ops| - 1]
         case Update(_, request) => request
         case Moved(target) => target
  }

  /** The last position an update asked for. */
  ghost function LastRequest(from: u32, ops: seq<Op>): u32 {
    if ops == [] then from
    else match ops[|ops| - 1]
         case Update(_, request) => request
         case Moved(_) => LastRequest(from, ops[..|ops| - 1])
  }

  /** Over any run, however handles and limits come and go and wherever the receiver drifts: the receiver
      is where it was last told to be, by whatever mix of deltas, absolute sends and silence, and the
      cached word is the last request. */
  lemma {:induction false} RunFollows(s: State, ops: seq<Op>)
    ensures Run(s, ops).position == LastTarget(s.position, ops)
    ensures Run(s, ops).cached == LastRequest(s.cached, ops)
  {
    if ops != [] {
      var before := Run(s, ops[..|ops| - 1]);
      RunFollows(s, ops[..|ops| - 1]);
      var op := ops[|ops| - 1];
      if op.Update? {
        ReporterLands(before.position, before.cached, op.handle, op.request);
      }
    }
  }

  /** So receiver and cached word agree exactly when no drift came after the last update to another place:
      in particular after every run that ends in an update, and over every run without drift from a state
      in which they agree. */
  lemma RunAgrees(s: State, ops: seq<Op>)
    ensures Run(s, ops).position == Run(s, ops).cached <==> LastTarget(s.position, ops) == LastRequest(s.cached, ops)
    ensures ops != [] && ops[|ops| - 1].Update? ==> Run(s, ops).position == Run(s, ops).cached
    ensures s.position == s.cached && (forall i :: 0 <= i < |ops| ==> ops[i].Update?) ==>
              Run(s, ops).position == Run(s, ops).cached
  {
    RunFollows(s, ops);
  }
}
