/** The buffered reader: an in-place buffer refilled by compaction and at most one capped read, an EOF
    latch and an "unlimited" sentinel. The stream model follows the bytes of the underlying source. */
module BufferedReader {
  import opened Words

  const UNLIMITED: u32 := 0xffff_ffff

  // ---------------------------------------------------------------------------------------------
  // The stream view
  // ---------------------------------------------------------------------------------------------

  /** `consumed` is what the client has advanced over and `rest` what the source has yet to deliver;
      `unread` are the buffered bytes at and after the cursor. */
  datatype Stream = Stream(
    consumed: seq<u8>,
    unread: seq<u8>,
    rest: seq<u8>,
    remaining: u32,
    capacity: u32,
    buffered: u32,
    cursor: u32,
    eof: bool,
    readCount: u32)

  /** A cursor past the buffered count leaves nothing unread. */
  ghost predicate WF(s: Stream) {
    && s.buffered <= s.capacity
    && |s.unread| == Max(0, s.buffered - s.cursor)
  }

  /** The first test of a refill: enough is buffered, or the latch is set. The sum wraps. */
  predicate Skips(s: Stream, requested: u32) {
    Wrap(s.cursor + requested) <= s.buffered || s.eof
  }

  /** The byte count asked of the source once the unread bytes have moved to the front. */
  function Asked(s: Stream): u32
    requires |s.unread| <= s.capacity
  {
    Min(s.capacity - |s.unread|, s.remaining)
  }

  /** What one read delivers when the source offers `offer` bytes at most. */
  function Delivered(s: Stream, offer: nat): nat
    requires |s.unread| <= s.capacity
  {
    Min(offer, Min(Asked(s), |s.rest|))
  }

  /** Unread bytes at the front. */
  ghost function Compacted(s: Stream): Stream
    requires WF(s)
  {
    s.(buffered := |s.unread|, cursor := 0)
  }

  /** At most one read behind them. */
  ghost function Filled(s: Stream, offer: nat): Stream
    requires WF(s)
  {
    var k := Delivered(s, offer);
    s.(unread := s.unread + s.rest[..k],
       rest := s.rest[k..],
       remaining := if s.remaining == UNLIMITED then UNLIMITED else s.remaining - k,
       buffered := |s.unread| + k,
       readCount := if Asked(s) == 0 then s.readCount else Wrap(s.readCount + 1))
  }

  ghost function Refilled(s: Stream, requested: u32, offer: nat): Stream
    requires WF(s)
  {
    if Skips(s, requested) then s
    else
      var f := Filled(Compacted(s), offer);
      f.(eof := f.buffered == 0)
  }

  ghost function Advanced(s: Stream, n: nat): Stream
    requires WF(s) && n <= |s.unread|
  {
    s.(consumed := s.consumed + s.unread[..n], unread := s.unread[n..], cursor := s.cursor + n)
  }

  datatype Op = Refill(requested: u32, offer: nat) | Advance(count: nat)

  ghost predicate Enabled(s: Stream, op: Op) {
    op.Advance? ==> op.count <= |s.unread|
  }

  ghost function Step(s: Stream, op: Op): (r: Stream)
    requires WF(s) && Enabled(s, op)
    ensures WF(r) && r.capacity == s.capacity
  {
    match op
    case Refill(requested, offer) => Refilled(s, requested, offer)
    case Advance(n) => Advanced(s, n)
  }

  ghost predicate AllEnabled(s: Stream, ops: seq<Op>)
    requires WF(s)
    decreases |ops|
  {
    ops == [] || (Enabled(s, ops[0]) && AllEnabled(Step(s, ops[0]), ops[1..]))
  }

  ghost function Run(s: Stream, ops: seq<Op>): (r: Stream)
    requires WF(s) && AllEnabled(s, ops)
    ensures WF(r)
    decreases |ops|
  {
    if ops == [] then s else Run(Step(s, ops[0]), ops[1..])
  }

  // ---------------------------------------------------------------------------------------------
  // Properties of runs
  // ---------------------------------------------------------------------------------------------

  /** The whole stream, wherever its bytes now are. */
  ghost function Whole(s: Stream): seq<u8> {
    s.consumed + s.unread + s.rest
  }

  /** Bytes that have left the source. */
  ghost function Taken(s: Stream): nat {
    |s.consumed| + |s.unread|
  }

  /** What one refill leaves: nothing changed if the wrapped sum reaches no further than the buffered count
      or the latch is set; and otherwise one read of whatever the room behind the unread bytes, the limit,
      the offer and the source allow, counted if there was anything to ask for. */
  lemma RefillEffect(s: Stream, requested: u32, offer: nat)
    requires WF(s)
    ensures var r := Step(s, Refill(requested, offer));
            if s.eof || (s.cursor + requested) % 0x1_0000_0000 <= s.buffered then r == s
            else
              var room := Min(s.capacity - |s.unread|, s.remaining);
              var k := Min(offer, Min(room, |s.rest|));
              && r.consumed == s.consumed && r.unread == s.unread + s.rest[..k] && r.rest == s.rest[k..]
              && r.cursor == 0 && r.buffered == |s.unread| + k && r.capacity == s.capacity
              && r.remaining == (if s.remaining == 0xffff_ffff then s.remaining else s.remaining - k)
              && r.readCount == (if room == 0 then s.readCount else (s.readCount + 1) % 0x1_0000_0000)
              && (r.eof <==> r.unread == [])
  {
  }

  /** A refill that the source does not starve ends with enough unread, or with a full buffer, an exhausted
      source or an exhausted limit. */
  lemma RefillServes(s: Stream, requested: u32, offer: nat)
    requires WF(s) && !s.eof && s.cursor <= s.buffered && s.cursor + requested < TWO_32 && offer >= s.capacity
    ensures var r := Step(s, Refill(requested, offer));
            |r.unread| >= requested || |r.unread| == s.capacity || r.rest == [] || r.remaining == 0
  {
  }

  /** And one that finds enough unread, its sum not wrapping, leaves everything alone. */
  lemma RefillUnneeded(s: Stream, requested: u32, offer: nat)
    requires WF(s) && s.cursor <= s.buffered && s.cursor + requested < TWO_32 && requested <= |s.unread|
    ensures Step(s, Refill(requested, offer)) == s
  {
  }

  /** An advance hands exactly the next `n` unread bytes to the client. */
  lemma AdvanceEffect(s: Stream, n: nat)
    requires WF(s) && Enabled(s, Advance(n))
    ensures var r := Step(s, Advance(n));
            && |r.unread| == |s.unread| - n && r.consumed + r.unread == s.consumed + s.unread
            && r == s.(consumed := r.consumed, unread := r.unread, cursor := r.cursor)
            && |r.consumed| == |s.consumed| + n && r.cursor == s.cursor + n
  {
    assert s.unread == s.unread[..n] + s.unread[n..];
  }

  lemma StepKeepsStream(s: Stream, op: Op)
    requires WF(s) && Enabled(s, op)
    ensures Whole(Step(s, op)) == Whole(s)
    ensures (s.remaining == UNLIMITED) == (Step(s, op).remaining == UNLIMITED)
    ensures s.remaining != UNLIMITED ==>
              Taken(Step(s, op)) + Step(s, op).remaining == Taken(s) + s.remaining
    ensures s.consumed <= Step(s, op).consumed
  {
    match op
    case Refill(requested, offer) =>
      if !Skips(s, requested) {
        var k := Delivered(s, offer);
        assert s.rest == s.rest[..k] + s.rest[k..];
        assert Whole(s) == s.consumed + (s.unread + s.rest[..k]) + s.rest[k..];
      }
    case Advance(n) =>
      assert s.unread == s.unread[..n] + s.unread[n..];
      assert Whole(s) == (s.consumed + s.unread[..n]) + s.unread[n..] + s.rest;
  }

  /** Whatever the interleaving of refills and advances, the client sees the bytes of the unbuffered
      source, in order, none lost and none repeated; and unless unlimited, the bytes taken plus the
      remaining count never change. */
  lemma {:induction false} RunKeepsStream(s: Stream, ops: seq<Op>)
    requires WF(s) && AllEnabled(s, ops)
    ensures Whole(Run(s, ops)) == Whole(s) && s.consumed <= Run(s, ops).consumed
    ensures (s.remaining == UNLIMITED) == (Run(s, ops).remaining == UNLIMITED)
    ensures s.remaining != UNLIMITED ==> Taken(Run(s, ops)) + Run(s, ops).remaining == Taken(s) + s.remaining
    decreases |ops|
  {
    if ops != [] {
      StepKeepsStream(s, ops[0]);
      RunKeepsStream(Step(s, ops[0]), ops[1..]);
    }
  }

  /** Once the latch is set with nothing unread, every later operation that can still happen leaves the
      reader as it is. */
  lemma {:induction false} EofIsForever(s: Stream, ops: seq<Op>)
    requires WF(s) && AllEnabled(s, ops) && s.eof && s.unread == []
    ensures Run(s, ops) == s
    decreases |ops|
  {
    if ops != [] {
      assert Step(s, ops[0]) == s by {
        if ops[0].Advance? {
          assert s.unread[..0] == [] && s.consumed + [] == s.consumed;
        }
      }
      EofIsForever(s, ops[1..]);
    }
  }

  /** The latch is only ever set with nothing unread, whatever the source answers. */
  lemma {:induction false} RunLatchesEmpty(s: Stream, ops: seq<Op>)
    requires WF(s) && AllEnabled(s, ops) && (s.eof ==> s.unread == [])
    ensures Run(s, ops).eof ==> Run(s, ops).unread == []
    decreases |ops|
  {
    if ops != [] {
      RunLatchesEmpty(Step(s, ops[0]), ops[1..]);
    }
  }

  /** A source that never answers a request for bytes it has with none. */
  ghost predicate Honest(op: Op) {
    op.Refill? ==> op.offer > 0
  }

  /** EOF is the truth: nothing is unread and the source is exhausted, or its limit is, or there is no
      buffer. */
  ghost predicate EofTruthful(s: Stream) {
    s.eof ==> s.unread == [] && (s.rest == [] || s.remaining == 0 || s.capacity == 0)
  }

  lemma {:induction false} RunStaysTruthful(s: Stream, ops: seq<Op>)
    requires WF(s) && AllEnabled(s, ops) && EofTruthful(s)
    requires forall i :: 0 <= i < |ops| ==> Honest(ops[i])
    ensures EofTruthful(Run(s, ops))
    decreases |ops|
  {
    if ops != [] {
      assert Honest(ops[0]);
      RunStaysTruthful(Step(s, ops[0]), ops[1..]);
    }
  }

  ghost function Opened(source: seq<u8>, remaining: u32, capacity: u32): Stream {
    Stream([], [], source, remaining, capacity, 0, 0, false, 0)
  }

  /** Completeness: over an honest source and a nonempty buffer, a run that ends in EOF has handed the
      client the whole source, or exactly the limit when that is shorter. */
  lemma EofMeansDelivered(source: seq<u8>, remaining: u32, capacity: u32, ops: seq<Op>)
    requires capacity > 0
    requires AllEnabled(Opened(source, remaining, capacity), ops)
    requires forall i :: 0 <= i < |ops| ==> Honest(ops[i])
    requires Run(Opened(source, remaining, capacity), ops).eof
    ensures var n := if remaining == UNLIMITED then |source| else Min(remaining, |source|);
            Run(Opened(source, remaining, capacity), ops).consumed == source[..n]
  {
    var s := Opened(source, remaining, capacity);
    var r := Run(s, ops);
    RunKeepsStream(s, ops);
    RunStaysTruthful(s, ops);
    CapacityStays(s, ops);
    assert Whole(s) == source by {
      assert [] + [] + source == source;
    }
    assert Whole(r) == r.consumed + r.rest by {
      assert r.consumed + [] == r.consumed;
    }
    assert r.consumed == source[..|r.consumed|] && |source| == |r.consumed| + |r.rest|;
  }

  lemma {:induction false} CapacityStays(s: Stream, ops: seq<Op>)
    requires WF(s) && AllEnabled(s, ops)
    ensures Run(s, ops).capacity == s.capacity
    decreases |ops|
  {
    if ops != [] {
      CapacityStays(Step(s, ops[0]), ops[1..]);
    }
  }

  /** When the first test lies: fewer bytes than asked for are unread, the latch is clear, and still no
      refill happens, exactly when cursor plus request wraps to no more than the buffered count. */
  lemma GateExact(s: Stream, requested: u32)
    requires WF(s) && !s.eof
    ensures Skips(s, requested) && |s.unread| < requested <==>
            s.cursor + requested >= TWO_32 && s.cursor + requested - TWO_32 <= s.buffered
  {
  }

  /** From an opened reader no run takes the cursor past the buffered count. */
  lemma {:induction false} RunKeepsCursor(s: Stream, ops: seq<Op>)
    requires WF(s) && AllEnabled(s, ops) && s.cursor <= s.buffered
    ensures Run(s, ops).cursor <= Run(s, ops).buffered
    decreases |ops|
  {
    if ops != [] {
      RunKeepsCursor(Step(s, ops[0]), ops[1..]);
    }
  }

  /** So there a request can only be skipped wrongly if it reaches 2^32 less the capacity. */
  lemma SmallRequestsAreServed(source: seq<u8>, remaining: u32, capacity: u32, ops: seq<Op>, requested: u32)
    requires AllEnabled(Opened(source, remaining, capacity), ops)
    requires requested + capacity < TWO_32
    ensures var r := Run(Opened(source, remaining, capacity), ops);
            !r.eof && Skips(r, requested) ==> requested <= |r.unread|
  {
    var s := Opened(source, remaining, capacity);
    RunKeepsCursor(s, ops);
    CapacityStays(s, ops);
    if !Run(s, ops).eof {
      GateExact(Run(s, ops), requested);
    }
  }

  /** The least request that a cursor at the end of a full buffer makes wrap. */
  function WrappingRequest(capacity: u32): u32
    requires capacity > 0
  {
    TWO_32 - capacity
  }

  /** And such a request is, after one refill of the whole buffer and an advance over it: nothing is
      unread, the source has more, and nothing happens. */
  lemma WrappedGateStarves(source: seq<u8>, capacity: u32)
    requires 0 < capacity < |source|
    ensures var s, ops := Opened(source, UNLIMITED, capacity), [Refill(capacity, capacity), Advance(capacity)];
            && AllEnabled(s, ops)
            && var r := Run(s, ops);
               r.unread == [] && r.rest == source[capacity..] && r.rest != [] && !r.eof
               && forall offer: nat :: Refilled(r, WrappingRequest(capacity), offer) == r
  {
    var s, ops := Opened(source, UNLIMITED, capacity), [Refill(capacity, capacity), Advance(capacity)];
    var one := Step(s, ops[0]);
    assert one.unread == source[..capacity];
    assert ops[1..] == [Advance(capacity)];
    assert ops[1..][1..] == [];
    var r := Step(one, ops[1]);
    assert Run(s, ops) == Run(one, ops[1..]) == r;
  }

  // ---------------------------------------------------------------------------------------------
  // In place
  // ---------------------------------------------------------------------------------------------

  class Reader {
    const buffer: array<u8>
    const capacity: u32
    var remaining: u32
    var buffered: u32
    var cursor: u32
    var eof: u8
    var readCount: u32
    var rest: seq<u8>
    ghost var consumed: seq<u8>

    ghost predicate Valid()
      reads this
    {
      capacity <= buffer.Length && buffered <= capacity
    }

    ghost function View(): (s: Stream)
      requires Valid()
      reads this, buffer
      ensures WF(s)
    {
      Stream(consumed, if cursor <= buffered then buffer[cursor..buffered] else [], rest,
             remaining, capacity, buffered, cursor, eof != 0, readCount)
    }

    constructor (source: seq<u8>, remaining: u32, capacity: u32)
      ensures Valid() && fresh(buffer) && View() == Opened(source, remaining, capacity)
    {
      this.buffer := new u8[capacity](_ => 0);
      this.capacity := capacity;
      this.remaining := remaining;
      buffered, cursor, eof, readCount := 0, 0, 0, 0;
      rest := source;
      consumed := [];
    }

    /** The virtual read: at most `count` bytes from the front of the source go to the buffer; how many
        the source offers is its own affair. */
    method Read(at: nat, count: u32, offer: nat) returns (received: u32)
      requires at + count <= buffer.Length
      modifies this`rest, buffer
      ensures received == Min(offer, Min(count, |old(rest)|))
      ensures rest == old(rest)[received..]
      ensures buffer[..] == old(buffer[..at]) + old(rest)[..received] + old(buffer[at + received..])
    {
      received := Min(offer, Min(count, |rest|));
      forall i | 0 <= i < received {
        buffer[at + i] := rest[i];
      }
      rest := rest[received..];
    }

    /** `memmove` of the unread bytes to the front. */
    method MoveToFront(from: nat, count: nat)
      requires from + count <= buffer.Length
      modifies buffer
      ensures buffer[..] == old(buffer[from..from + count]) + old(buffer[count..])
    {
      forall i | 0 <= i < count {
        buffer[i] := buffer[from + i];
      }
    }

    /** The compaction: unread bytes to the front, cursor to zero. */
    method Compact()
      requires Valid()
      modifies this`buffered, this`cursor, buffer
      ensures Valid() && cursor == 0
      ensures View() == Compacted(old(View()))
      ensures buffer[capacity..] == old(buffer[capacity..])
    {
      if cursor < buffered {
        MoveToFront(cursor, buffered - cursor);
        buffered := buffered - cursor;
      } else {
        buffered := 0;
      }
      cursor := 0;
      assert View().unread == buffer[..buffered];
    }

    /** The virtual read into the room behind the unread bytes, and the count of what is buffered. */
    method ReadBehind(count: u32, offer: nat) returns (received: u32)
      requires Valid() && cursor == 0 && count <= capacity - buffered
      modifies this`buffered, this`rest, buffer
      ensures Valid() && received == Min(offer, Min(count, |old(rest)|))
      ensures var s := old(View());
              View() == s.(unread := s.unread + s.rest[..received], rest := s.rest[received..],
                           buffered := s.buffered + received)
      ensures buffer[capacity..] == old(buffer[capacity..])
    {
      ghost var s := View();
      received := Read(buffered, count, offer);
      assert buffer[..buffered + received] == s.unread + s.rest[..received];
      buffered := buffered + received;
      assert View().unread == buffer[..buffered];
    }

    /** The read is counted, and what it delivered is taken off the limit unless there is none. */
    method Account(received: u32)
      requires Valid() && (remaining != UNLIMITED ==> received <= remaining)
      modifies this`remaining, this`readCount
      ensures Valid()
      ensures var s := old(View());
              View() == s.(remaining := if s.remaining == UNLIMITED then UNLIMITED else s.remaining - received,
                           readCount := Wrap(s.readCount + 1))
    {
      readCount := Wrap(readCount + 1);
      if remaining != UNLIMITED {
        remaining := remaining - received;
      }
    }

    /** The one read of a refill, behind the compacted bytes. */
    method Fill(offer: nat)
      requires Valid() && cursor == 0
      modifies this`remaining, this`buffered, this`readCount, this`rest, buffer
      ensures Valid() && View() == Filled(old(View()), offer)
      ensures buffer[capacity..] == old(buffer[capacity..])
    {
      ghost var s := View();
      var count := Min(capacity - buffered, remaining);
      if count != 0 {
        var received := ReadBehind(count, offer);
        Account(received);
      } else {
        assert s.unread + s.rest[..0] == s.unread && s.rest[0..] == s.rest;
      }
    }

    /** The end-of-file byte is set once nothing is buffered. */
    method Latch()
      requires Valid() && eof == 0
      modifies this`eof
      ensures Valid() && View() == old(View()).(eof := old(buffered) == 0)
    {
      if buffered == 0 {
        eof := 1;
      }
    }

    /** `buffered_reader_refill` */
    method Refill(requested: u32, offer: nat)
      requires Valid()
      modifies this, buffer
      ensures Valid() && View() == Refilled(old(View()), requested, offer)
      ensures buffer[capacity..] == old(buffer[capacity..])
      ensures Skips(old(View()), requested) ==> buffer[..] == old(buffer[..]) && eof == old(eof)
    {
      if Wrap(cursor + requested) <= buffered || eof != 0 {
        return;
      }
      Compact();
      Fill(offer);
      Latch();
    }

    /** The client takes `count` unread bytes. */
    method Advance(count: u32)
      requires Valid() && count <= |View().unread|
      modifies this`cursor, this`consumed
      ensures Valid() && View() == Advanced(old(View()), count)
    {
      consumed := consumed + View().unread[..count];
      cursor := cursor + count;
    }
  }
}
