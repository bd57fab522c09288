/** The buffered-stream flush family in place: states that flags and words are written into, a block
    helper that may write back, and a collection walk that reloads its end. Every method does to the
    heap what StreamModel says. */
module BufferedStreams {
  import opened Words
  import opened BlockTiling
  import opened StreamModel

  /** The backing object's two words that a flush reads. */
  class Backing {
    var length: u32
    var blockSize: u32

    constructor (length: u32, blockSize: u32) {
      this.length, this.blockSize := length, blockSize;
    }
  }

  class BufferedStream {
    const backing: Backing
    var active: u8
    var pending: u8
    var blockIndex: u32
    var flushContext: u32
    var bufferOwner: u32

    ghost function View(): Stream
      reads this, backing
    {
      Stream(backing.length, backing.blockSize, active, pending, blockIndex, flushContext, bufferOwner)
    }

    constructor (backing: Backing, active: u8, pending: u8, blockIndex: u32, flushContext: u32, bufferOwner: u32) {
      this.backing := backing;
      this.active, this.pending, this.blockIndex := active, pending, blockIndex;
      this.flushContext, this.bufferOwner := flushContext, bufferOwner;
    }
  }

  /** One collection, the streams around it, and the unported callees with a log of what they were
      asked to do. */
  class Streams {
    const helper: Helper
    const entries: seq<BufferedStream>
    var end: nat
    var events: seq<Event<BufferedStream>>
    ghost const streams: set<BufferedStream>

    constructor (helper: Helper, entries: seq<BufferedStream>, ghost streams: set<BufferedStream>)
      requires forall i :: 0 <= i < |entries| ==> entries[i] in streams
      ensures WF(View()) && View().entries == entries && View().end == |entries| && View().events == []
      ensures this.helper == helper && this.streams == streams
    {
      this.helper, this.entries, this.streams := helper, entries, streams;
      end, events := |entries|, [];
    }

    ghost function View(): State<BufferedStream>
      reads this, streams, set t | t in streams :: t.backing
    {
      State(map t | t in streams :: t.View(), entries, end, events)
    }

    /** What the view says of one stream, and how a change to it alone shows. */
    lemma OneStream(t: BufferedStream, before: map<BufferedStream, Stream>)
      requires t in streams && before.Keys == streams
      requires forall u :: u in streams && u != t ==> u.View() == before[u]
      ensures View().streams == before[t := t.View()]
    {
    }

    /** The block-flush helper, free in its answer, in dropping the stream's owner, and, under a walk, in
        moving the end. `walk` is where a walk in progress stands; only this callee looks at it. */
    method FlushBlock(t: BufferedStream, range: Range, context: u32, walk: Option<nat>)
      returns (status: Bits)
      requires t in streams
      modifies this`events, this`end, t`bufferOwner
      ensures status == helper.status(|old(View()).events|)
      ensures var s, k := old(View()), |old(View()).events|;
              View() == s.(
                streams := s.streams[t := s.streams[t].(bufferOwner := if helper.dropsOwner(k) then 0 else s.streams[t].bufferOwner)],
                end := if walk.None? then s.end else helper.end(k, walk.value, s.end),
                events := s.events + [Dispatched(t, range, context)])
    {
      ghost var before := View().streams;
      var k := |events|;
      status := helper.status(k);
      if helper.dropsOwner(k) {
        t.bufferOwner := 0;
      }
      if walk.Some? {
        end := helper.end(k, walk.value, end);
      }
      events := events + [Dispatched(t, range, context)];
      OneStream(t, before);
    }

    method ClearPending(t: BufferedStream)
      requires t in streams
      modifies t`pending
      ensures var s := old(View()); View() == s.(streams := s.streams[t := s.streams[t].(pending := 0)])
    {
      ghost var before := View().streams;
      t.pending := 0;
      OneStream(t, before);
    }

    method ClearOwner(t: BufferedStream)
      requires t in streams
      modifies t`flushContext, t`bufferOwner
      ensures var s := old(View());
              View() == s.(streams := s.streams[t := s.streams[t].(flushContext := 0, bufferOwner := 0)])
    {
      ghost var before := View().streams;
      t.flushContext, t.bufferOwner := 0, 0;
      OneStream(t, before);
    }

    /** Reset and delete of the aligned buffer. */
    method Free(t: BufferedStream, owner: u32)
      modifies this`events
      ensures View() == old(View()).(events := old(events) + [Freed(t, owner)])
    {
      events := events + [Freed(t, owner)];
    }

    /** The state in between: the block is out and the pending byte not yet cleared. */
    lemma BlockOut(s: State<BufferedStream>, f: State<BufferedStream>, t: BufferedStream, walk: Option<nat>)
      requires t in s.streams && IsDirty(s.streams[t])
      requires walk.Some? ==> walk.value < |s.entries| && s.entries[walk.value] == t
      requires var k := |s.events|;
               f == s.(
                 streams := s.streams[t := s.streams[t].(bufferOwner := if helper.dropsOwner(k) then 0 else s.streams[t].bufferOwner)],
                 end := if walk.None? then s.end else helper.end(k, walk.value, s.end),
                 events := s.events + [Dispatch(t, s.streams[t])])
      ensures f.(streams := f.streams[t := f.streams[t].(pending := 0)])
           == match walk
              case None => Flushed(s, helper, t)
              case Some(cursor) => FlushEntry(s, helper, cursor)
    {
      var st := s.streams[t];
      var owner := if helper.dropsOwner(|s.events|) then 0 else st.bufferOwner;
      assert f.streams[t := f.streams[t].(pending := 0)] == s.streams[t := st.(pending := 0, bufferOwner := owner)];
    }

    /** `buffered_stream_flush_pending` */
    method FlushPending(t: BufferedStream, walk: Option<nat>) returns (status: Bits)
      requires t in streams
      requires walk.Some? ==> walk.value < |entries| && entries[walk.value] == t
      modifies this`events, this`end, t
      ensures status == FlushStatus(old(View()), helper, t)
      ensures View() == match walk
                        case None => Flushed(old(View()), helper, t)
                        case Some(cursor) => FlushEntry(old(View()), helper, cursor)
    {
      ghost var s := View();
      assert s.streams[t] == t.View();
      if t.active == 0 || t.pending == 0 {
        status := iset{};
        return;
      }
      var blockSize := t.backing.blockSize;
      var offset := Wrap(blockSize * t.blockIndex);
      var length := t.backing.length;
      var flushLength := if length <= Wrap(blockSize + offset) then Wrap(length - offset) else blockSize;
      assert Dispatched(t, Range(offset, flushLength), t.flushContext) == Dispatch(t, s.streams[t]);
      status := FlushBlock(t, Range(offset, flushLength), t.flushContext, walk);
      BlockOut(s, View(), t, walk);
      ClearPending(t);
    }

    /** `v` is where the walk that began in `s` stands before its entry `cursor`, with this status so far. */
    ghost predicate OnTheWay(s: State<BufferedStream>, v: State<BufferedStream>, cursor: nat, status: Bits)
      requires WF(s) && Reachable(helper, |s.entries|)
    {
      && WF(v) && v.entries == s.entries && cursor <= v.end
      && Walked(v, helper, cursor) == Walked(s, helper, 0)
      && Status(v, helper, cursor, status) == Status(s, helper, 0, iset{})
    }

    /** One turn of the walk. */
    lemma OneEntry(s: State<BufferedStream>, v: State<BufferedStream>, cursor: nat, status: Bits)
      requires WF(s) && Reachable(helper, |s.entries|) && OnTheWay(s, v, cursor, status) && cursor < v.end
      ensures OnTheWay(s, FlushEntry(v, helper, cursor), cursor + 1,
                       status + FlushStatus(v, helper, v.entries[cursor]))
    {
    }

    /** `buffered_stream_collection_flush` */
    method CollectionFlush() returns (status: Bits)
      requires WF(View()) && Reachable(helper, |entries|)
      modifies this`events, this`end, streams
      ensures View() == Walked(old(View()), helper, 0)
      ensures status == Status(old(View()), helper, 0, iset{})
    {
      ghost var s := View();
      var cursor := 0;
      status := iset{};
      while cursor != end
        invariant OnTheWay(s, View(), cursor, status)
        decreases |entries| - cursor
      {
        OneEntry(s, View(), cursor, status);
        var one := FlushPending(entries[cursor], Some(cursor));
        status := status + one;
        cursor := cursor + 1;
      }
    }

    /** `buffered_stream_destroy` */
    method Destroy(t: BufferedStream)
      requires t in streams
      modifies this`events, this`end, t
      ensures View() == Destroyed(old(View()), helper, t)
    {
      assert View().streams[t] == t.View();
      if t.bufferOwner != 0 {
        var _ := FlushPending(t, None);
        assert View().streams[t] == t.View();
        var owner := t.bufferOwner;
        if owner != 0 {
          Free(t, owner);
        }
        ClearOwner(t);
      }
    }
  }
}
