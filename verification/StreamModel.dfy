/** The buffered-stream flush family on values: pending flush, collection walk, destroy, and what holds
    over any mix of them. The class form in BufferedStreams.dfy refines it. */
module StreamModel {
  import opened Words
  import opened BlockTiling

  /** One stream state with the two backing words its flush reads. */
  datatype Stream = Stream(
    length: u32,
    blockSize: u32,
    active: u8,
    pending: u8,
    blockIndex: u32,
    flushContext: u32,
    bufferOwner: u32)

  datatype Event<T> =
    | Dispatched(stream: T, range: Range, context: u32)
    | Freed(stream: T, owner: u32)

  /** The unported block-flush helper and everything it may do: the status it answers, whether it drops
      the stream's buffer owner, and where it moves the end of the collection being walked. The first
      argument is the number of events before the call, so no two calls need agree. */
  datatype Helper = Helper(
    status: nat -> Bits,
    dropsOwner: nat -> bool,
    end: (nat, nat, nat) -> nat)

  /** A callee may move the end only to a boundary the walk can still reach. */
  ghost predicate Reachable(h: Helper, count: nat) {
    forall k: nat, cursor: nat, end: nat :: cursor < end <= count ==> cursor < h.end(k, cursor, end) <= count
  }

  datatype State<T> = State(streams: map<T, Stream>, entries: seq<T>, end: nat, events: seq<Event<T>>)

  ghost predicate WF<T>(s: State<T>) {
    && s.end <= |s.entries|
    && (forall i :: 0 <= i < |s.entries| ==> s.entries[i] in s.streams)
  }

  predicate IsDirty(st: Stream) {
    st.active != 0 && st.pending != 0
  }

  // ---------------------------------------------------------------------------------------------
  // Operations
  // ---------------------------------------------------------------------------------------------

  /** The range of a stream's block. */
  function OwnRange(st: Stream): Range {
    FlushRange(st.blockSize, st.length, st.blockIndex)
  }

  ghost function Dispatch<T>(t: T, st: Stream): Event<T> {
    Dispatched(t, OwnRange(st), st.flushContext)
  }

  /** `buffered_stream_flush_pending` */
  ghost function Flushed<T>(s: State<T>, h: Helper, t: T): State<T>
    requires t in s.streams
  {
    var st := s.streams[t];
    if !IsDirty(st) then s
    else
      var owner := if h.dropsOwner(|s.events|) then 0 else st.bufferOwner;
      s.(streams := s.streams[t := st.(pending := 0, bufferOwner := owner)],
         events := s.events + [Dispatch(t, st)])
  }

  ghost function FlushStatus<T>(s: State<T>, h: Helper, t: T): Bits
    requires t in s.streams
  {
    if IsDirty(s.streams[t]) then h.status(|s.events|) else iset{}
  }

  /** The end after the flush of one entry. */
  ghost function EndAfter<T>(s: State<T>, h: Helper, cursor: nat): nat
    requires cursor < |s.entries| && s.entries[cursor] in s.streams
  {
    if IsDirty(s.streams[s.entries[cursor]]) then h.end(|s.events|, cursor, s.end) else s.end
  }

  ghost function FlushEntry<T>(s: State<T>, h: Helper, cursor: nat): State<T>
    requires cursor < |s.entries| && s.entries[cursor] in s.streams
  {
    Flushed(s, h, s.entries[cursor]).(end := EndAfter(s, h, cursor))
  }

  /** `buffered_stream_collection_flush` from `cursor` on: what it does. */
  ghost function Walked<T>(s: State<T>, h: Helper, cursor: nat): (r: State<T>)
    requires WF(s) && Reachable(h, |s.entries|) && cursor <= s.end
    ensures WF(r) && r.entries == s.entries && r.streams.Keys == s.streams.Keys
    decreases |s.entries| - cursor
  {
    if cursor == s.end then s else Walked(FlushEntry(s, h, cursor), h, cursor + 1)
  }

  /** `buffered_stream_collection_flush` from `cursor` on: what it answers, given the status so far. */
  ghost function Status<T>(s: State<T>, h: Helper, cursor: nat, status: Bits): Bits
    requires WF(s) && Reachable(h, |s.entries|) && cursor <= s.end
    decreases |s.entries| - cursor
  {
    if cursor == s.end then status
    else Status(FlushEntry(s, h, cursor), h, cursor + 1, status + FlushStatus(s, h, s.entries[cursor]))
  }

  /** `buffered_stream_destroy` */
  ghost function Destroyed<T>(s: State<T>, h: Helper, t: T): State<T>
    requires t in s.streams
  {
    if s.streams[t].bufferOwner == 0 then s else Released(Flushed(s, h, t), t)
  }

  /** What follows the flush of a destroy. */
  ghost function Released<T>(s: State<T>, t: T): State<T>
    requires t in s.streams
  {
    var st := s.streams[t];
    s.(streams := s.streams[t := st.(flushContext := 0, bufferOwner := 0)],
       events := if st.bufferOwner == 0 then s.events else s.events + [Freed(t, st.bufferOwner)])
  }

  datatype Op<T> = Flush(stream: T) | FlushAll | Destroy(stream: T)

  ghost predicate Enabled<T>(s: State<T>, op: Op<T>) {
    op.FlushAll? || op.stream in s.streams
  }

  ghost function Step<T>(s: State<T>, h: Helper, op: Op<T>): (r: State<T>)
    requires WF(s) && Reachable(h, |s.entries|) && Enabled(s, op)
    ensures WF(r) && r.entries == s.entries && r.streams.Keys == s.streams.Keys
  {
    match op
    case Flush(t) => Flushed(s, h, t)
    case FlushAll => Walked(s, h, 0)
    case Destroy(t) => Destroyed(s, h, t)
  }

  ghost predicate AllEnabled<T>(s: State<T>, ops: seq<Op<T>>) {
    forall i :: 0 <= i < |ops| ==> Enabled(s, ops[i])
  }

  lemma RestEnabled<T>(s: State<T>, h: Helper, ops: seq<Op<T>>)
    requires WF(s) && Reachable(h, |s.entries|) && AllEnabled(s, ops) && ops != []
    ensures AllEnabled(Step(s, h, ops[0]), ops[1..])
  {
    assert forall i :: 0 <= i < |ops| - 1 ==> ops[1..][i] == ops[i + 1];
  }

  ghost function Run<T>(s: State<T>, h: Helper, ops: seq<Op<T>>): (r: State<T>)
    requires WF(s) && Reachable(h, |s.entries|) && AllEnabled(s, ops)
    ensures WF(r) && r.entries == s.entries && r.streams.Keys == s.streams.Keys
    decreases |ops|
  {
    if ops == [] then s
    else
      RestEnabled(s, h, ops);
      Run(Step(s, h, ops[0]), h, ops[1..])
  }

  // ---------------------------------------------------------------------------------------------
  // Each pending block goes out exactly once
  // ---------------------------------------------------------------------------------------------

  ghost function Dispatches<T>(events: seq<Event<T>>, t: T): nat {
    if events == [] then 0
    else Dispatches(events[..|events| - 1], t) +
         if events[|events| - 1].Dispatched? && events[|events| - 1].stream == t then 1 else 0
  }

  ghost function Frees<T>(events: seq<Event<T>>, t: T): nat {
    if events == [] then 0
    else Frees(events[..|events| - 1], t) +
         if events[|events| - 1].Freed? && events[|events| - 1].stream == t then 1 else 0
  }

  lemma OneMore<T>(events: seq<Event<T>>, e: Event<T>, t: T)
    ensures Dispatches(events + [e], t) == Dispatches(events, t) + if e.Dispatched? && e.stream == t then 1 else 0
    ensures Frees(events + [e], t) == Frees(events, t) + if e.Freed? && e.stream == t then 1 else 0
  {
    assert (events + [e])[..|events|] == events;
  }

  /** Pending blocks still to go out, plus those that have. */
  ghost function BlocksDue<T>(s: State<T>, t: T): nat
    requires t in s.streams
  {
    (if s.streams[t].active != 0 && s.streams[t].pending != 0 then 1 else 0) + Dispatches(s.events, t)
  }

  /** Buffers still owned, plus those freed. */
  ghost function Buffers<T>(s: State<T>, t: T): nat
    requires t in s.streams
  {
    (if s.streams[t].bufferOwner != 0 then 1 else 0) + Frees(s.events, t)
  }

  ghost predicate Accounted<T>(s: State<T>, s': State<T>, t: T)
    requires t in s.streams && t in s'.streams
  {
    && BlocksDue(s', t) == BlocksDue(s, t)
    && Buffers(s', t) <= Buffers(s, t)
    && s'.streams[t].active == s.streams[t].active
    && (s'.streams[t].pending == 0 || s'.streams[t].pending == s.streams[t].pending)
    && (s'.streams[t].bufferOwner == 0 || s'.streams[t].bufferOwner == s.streams[t].bufferOwner)
  }

  /** The helper never drops a stream's buffer owner. */
  ghost predicate LeavesOwners(h: Helper) {
    forall k :: !h.dropsOwner(k)
  }

  /** Accounted, and no buffer left unaccounted for by a helper that drops none. */
  ghost predicate FullyAccounted<T>(s: State<T>, s': State<T>, h: Helper, t: T)
    requires t in s.streams && t in s'.streams
  {
    Accounted(s, s', t) && (LeavesOwners(h) ==> Buffers(s', t) == Buffers(s, t))
  }

  /** What goes out for a stream: its block, in its flush context. */
  ghost function BlockOf<T>(t: T, st: Stream): Event<T> {
    Dispatched(t, FlushRange(st.blockSize, st.length, st.blockIndex), st.flushContext)
  }

  /** What one flush does, by the two bytes: with either of them clear nothing, answering zero; and
      otherwise one dispatch, its status for an answer, and the pending byte cleared. */
  lemma FlushEffect<T>(s: State<T>, h: Helper, t: T)
    requires t in s.streams
    ensures var st, s' := s.streams[t], Flushed(s, h, t);
            if st.active == 0 || st.pending == 0 then s' == s && FlushStatus(s, h, t) == iset{}
            else
              && FlushStatus(s, h, t) == h.status(|s.events|)
              && s'.events == s.events + [BlockOf(t, st)]
              && s' == s.(events := s'.events, streams := s.streams[t := s'.streams[t]])
              && s'.streams[t] == st.(pending := 0,
                                      bufferOwner := if h.dropsOwner(|s.events|) then 0 else st.bufferOwner)
  {
  }

  lemma FlushAccounts<T>(s: State<T>, h: Helper, u: T, t: T)
    requires u in s.streams && t in s.streams
    ensures FullyAccounted(s, Flushed(s, h, u), h, t)
    ensures var st := Flushed(s, h, u).streams[u]; st.active == 0 || st.pending == 0
  {
    OneMore(s.events, Dispatch(u, s.streams[u]), t);
  }

  /** The second half of a destroy: the owner it finds, if any, is freed, and the words are cleared. */
  lemma FreeAccounts<T>(s: State<T>, h: Helper, u: T, t: T)
    requires u in s.streams && t in s.streams
    ensures FullyAccounted(s, Released(s, u), h, t)
  {
    var owner, r := s.streams[u].bufferOwner, Released(s, u);
    if owner != 0 {
      OneMore(s.events, Freed(u, owner), t);
    }
    assert r.streams[t] == if t == u then s.streams[t].(flushContext := 0, bufferOwner := 0) else s.streams[t];
    assert Dispatches(r.events, t) == Dispatches(s.events, t);
    assert Frees(r.events, t) == Frees(s.events, t) + if owner != 0 && t == u then 1 else 0;
  }

  lemma DestroyAccounts<T>(s: State<T>, h: Helper, u: T, t: T)
    requires u in s.streams && t in s.streams
    ensures FullyAccounted(s, Destroyed(s, h, u), h, t)
  {
    if s.streams[u].bufferOwner != 0 {
      FlushAccounts(s, h, u, t);
      FreeAccounts(Flushed(s, h, u), h, u, t);
    }
  }

  lemma AccountedTwice<T>(s: State<T>, f: State<T>, r: State<T>, h: Helper, t: T)
    requires t in s.streams && t in f.streams && t in r.streams
    requires FullyAccounted(s, f, h, t) && FullyAccounted(f, r, h, t)
    ensures FullyAccounted(s, r, h, t)
  {
  }

  lemma {:induction false} WalkAccounts<T>(s: State<T>, h: Helper, cursor: nat, t: T)
    requires WF(s) && Reachable(h, |s.entries|) && cursor <= s.end && t in s.streams
    ensures FullyAccounted(s, Walked(s, h, cursor), h, t)
    decreases |s.entries| - cursor
  {
    if cursor < s.end {
      var f := FlushEntry(s, h, cursor);
      FlushAccounts(s, h, s.entries[cursor], t);
      WalkAccounts(f, h, cursor + 1, t);
      AccountedTwice(s, f, Walked(f, h, cursor + 1), h, t);
    }
  }

  /** Over any mix of flushes, collection flushes and destroys, for every behaviour of the helper: a
      stream's pending block plus its dispatches is constant, so a pending block is dispatched at most
      once however often its state is listed, and exactly once if it ends up clean; and a stream frees
      at most one buffer. If the helper drops no owners, the buffer a stream still owns plus those it
      freed is constant too. (That no buffer is freed twice is FreesOnceExactlyWhen.) */
  lemma {:induction false} RunAccounts<T>(s: State<T>, h: Helper, ops: seq<Op<T>>, t: T)
    requires WF(s) && Reachable(h, |s.entries|) && AllEnabled(s, ops) && t in s.streams
    ensures FullyAccounted(s, Run(s, h, ops), h, t)
    decreases |ops|
  {
    if ops != [] {
      var s' := Step(s, h, ops[0]);
      match ops[0] {
        case Flush(u) => FlushAccounts(s, h, u, t);
        case FlushAll => WalkAccounts(s, h, 0, t);
        case Destroy(u) => DestroyAccounts(s, h, u, t);
      }
      RestEnabled(s, h, ops);
      RunAccounts(s', h, ops[1..], t);
    }
  }

  /** So under such a helper nothing leaks: a stream that ends without the buffer it owned has freed it,
      exactly once, and one that still has its buffer has not. */
  lemma RunFreesWhatItTakes<T>(s: State<T>, h: Helper, ops: seq<Op<T>>, t: T)
    requires WF(s) && Reachable(h, |s.entries|) && AllEnabled(s, ops) && t in s.streams
    requires LeavesOwners(h)
    ensures var r := Run(s, h, ops);
            Frees(r.events, t) - Frees(s.events, t)
            == if s.streams[t].bufferOwner != 0 && r.streams[t].bufferOwner == 0 then 1 else 0
  {
    RunAccounts(s, h, ops, t);
  }

  // ---------------------------------------------------------------------------------------------
  // Each buffer is freed as often as it is owned, at most
  // ---------------------------------------------------------------------------------------------

  /** How often an owner word was freed, whichever stream it was found in. */
  ghost function FreesOf<T>(events: seq<Event<T>>, owner: u32): nat {
    if events == [] then 0
    else FreesOf(events[..|events| - 1], owner) +
         if events[|events| - 1].Freed? && events[|events| - 1].owner == owner then 1 else 0
  }

  lemma OneMoreFree<T>(events: seq<Event<T>>, e: Event<T>, owner: u32)
    ensures FreesOf(events + [e], owner) == FreesOf(events, owner) + if e.Freed? && e.owner == owner then 1 else 0
  {
    assert (events + [e])[..|events|] == events;
  }

  /** The streams that own a buffer. */
  ghost function Holders<T>(s: State<T>, owner: u32): set<T> {
    set t | t in s.streams && s.streams[t].bufferOwner == owner
  }

  /** No more streams own the buffer, and what was freed of it some stream has let go. */
  ghost predicate LetGo<T>(s: State<T>, s': State<T>, owner: u32) {
    && Holders(s', owner) <= Holders(s, owner)
    && FreesOf(s'.events, owner) + |Holders(s', owner)| <= FreesOf(s.events, owner) + |Holders(s, owner)|
  }

  lemma Fewer<T>(a: set<T>, b: set<T>)
    requires a <= b
    ensures |a| <= |b|
  {
    if a != {} {
      var x :| x in a;
      Fewer(a - {x}, b - {x});
    }
  }

  lemma FlushLetsGo<T>(s: State<T>, h: Helper, u: T, owner: u32)
    requires u in s.streams && owner != 0
    ensures LetGo(s, Flushed(s, h, u), owner)
  {
    var s' := Flushed(s, h, u);
    OneMoreFree(s.events, Dispatch(u, s.streams[u]), owner);
    assert Holders(s', owner) <= Holders(s, owner);
    Fewer(Holders(s', owner), Holders(s, owner));
  }

  lemma HoldersBut<T>(f: State<T>, s': State<T>, u: T, owner: u32)
    requires u in f.streams && owner != 0
    requires s'.streams.Keys == f.streams.Keys && s'.streams[u].bufferOwner == 0
    requires forall t :: t in f.streams && t != u ==> s'.streams[t] == f.streams[t]
    ensures Holders(s', owner) == Holders(f, owner) - {u}
  {
  }

  /** The second half of a destroy. */
  lemma FreeLetsGo<T>(s: State<T>, f: State<T>, s': State<T>, u: T, owner: u32)
    requires LetGo(s, f, owner) && u in f.streams && owner != 0
    requires Holders(s', owner) == Holders(f, owner) - {u}
    requires s'.events == if f.streams[u].bufferOwner == 0 then f.events
                          else f.events + [Freed(u, f.streams[u].bufferOwner)]
    ensures LetGo(s, s', owner)
  {
    var held := f.streams[u].bufferOwner;
    OneMoreFree(f.events, Freed(u, held), owner);
    assert FreesOf(s'.events, owner) == FreesOf(f.events, owner) + if held == owner then 1 else 0;
    if held == owner {
      assert u in Holders(f, owner);
      assert |Holders(s', owner)| == |Holders(f, owner)| - 1;
    } else {
      assert Holders(s', owner) == Holders(f, owner);
    }
  }

  lemma DestroyLetsGo<T>(s: State<T>, h: Helper, u: T, owner: u32)
    requires u in s.streams && owner != 0
    ensures LetGo(s, Destroyed(s, h, u), owner)
  {
    if s.streams[u].bufferOwner != 0 {
      FlushLetsGo(s, h, u, owner);
      HoldersBut(Flushed(s, h, u), Destroyed(s, h, u), u, owner);
      FreeLetsGo(s, Flushed(s, h, u), Destroyed(s, h, u), u, owner);
    }
  }

  lemma EntryLetsGo<T>(s: State<T>, h: Helper, cursor: nat, owner: u32)
    requires WF(s) && cursor < |s.entries| && owner != 0
    ensures LetGo(s, FlushEntry(s, h, cursor), owner)
  {
    FlushLetsGo(s, h, s.entries[cursor], owner);
    assert Holders(FlushEntry(s, h, cursor), owner) == Holders(Flushed(s, h, s.entries[cursor]), owner);
  }

  lemma {:induction false} WalkLetsGo<T>(s: State<T>, h: Helper, cursor: nat, owner: u32)
    requires WF(s) && Reachable(h, |s.entries|) && cursor <= s.end && owner != 0
    ensures LetGo(s, Walked(s, h, cursor), owner)
    decreases |s.entries| - cursor
  {
    if cursor < s.end {
      EntryLetsGo(s, h, cursor, owner);
      WalkLetsGo(FlushEntry(s, h, cursor), h, cursor + 1, owner);
    }
  }

  lemma StepLetsGo<T>(s: State<T>, h: Helper, op: Op<T>, owner: u32)
    requires WF(s) && Reachable(h, |s.entries|) && Enabled(s, op) && owner != 0
    ensures LetGo(s, Step(s, h, op), owner)
  {
    match op
    case Flush(u) => FlushLetsGo(s, h, u, owner);
    case FlushAll => WalkLetsGo(s, h, 0, owner);
    case Destroy(u) => DestroyLetsGo(s, h, u, owner);
  }

  /** Over any run a buffer is freed at most as often as streams owned it at the start. */
  lemma {:induction false} RunFreesAtMost<T>(s: State<T>, h: Helper, ops: seq<Op<T>>, owner: u32)
    requires WF(s) && Reachable(h, |s.entries|) && AllEnabled(s, ops) && owner != 0
    ensures LetGo(s, Run(s, h, ops), owner)
    decreases |ops|
  {
    if ops != [] {
      StepLetsGo(s, h, ops[0], owner);
      RestEnabled(s, h, ops);
      RunFreesAtMost(Step(s, h, ops[0]), h, ops[1..], owner);
    }
  }

  /** No two streams own one buffer. */
  ghost predicate Unshared<T>(s: State<T>) {
    forall t, u :: t in s.streams && u in s.streams && t != u && s.streams[t].bufferOwner != 0 ==>
      s.streams[t].bufferOwner != s.streams[u].bufferOwner
  }

  /** No buffer is freed twice by these operations. */
  ghost predicate FreesOnce<T>(s: State<T>, h: Helper, ops: seq<Op<T>>)
    requires WF(s) && Reachable(h, |s.entries|)
  {
    AllEnabled(s, ops) ==>
      forall owner: u32 :: owner != 0 ==> FreesOf(Run(s, h, ops).events, owner) <= FreesOf(s.events, owner) + 1
  }

  lemma UnsharedFreesOnce<T>(s: State<T>, h: Helper, ops: seq<Op<T>>)
    requires WF(s) && Reachable(h, |s.entries|) && Unshared(s)
    ensures FreesOnce(s, h, ops)
  {
    if AllEnabled(s, ops) {
      forall owner: u32 | owner != 0
        ensures FreesOf(Run(s, h, ops).events, owner) <= FreesOf(s.events, owner) + 1
      {
        RunFreesAtMost(s, h, ops, owner);
        if Holders(s, owner) != {} {
          var t :| t in Holders(s, owner);
          assert Holders(s, owner) == {t};
        }
      }
    }
  }

  /** A destroy whose flush does not drop the buffer frees it. */
  lemma DestroyFrees<T>(s: State<T>, h: Helper, t: T, owner: u32)
    requires t in s.streams && s.streams[t].bufferOwner == owner != 0 && LeavesOwners(h)
    ensures FreesOf(Destroyed(s, h, t).events, owner) == FreesOf(s.events, owner) + 1
    ensures forall u :: u in s.streams && u != t ==> Destroyed(s, h, t).streams[u] == s.streams[u]
  {
    var f := Flushed(s, h, t);
    OneMoreFree(s.events, Dispatch(t, s.streams[t]), owner);
    OneMoreFree(f.events, Freed(t, owner), owner);
  }

  /** Destroying two streams that share a buffer frees it twice. */
  lemma SharedFreesTwice<T>(s: State<T>, h: Helper, t: T, u: T)
    requires WF(s) && Reachable(h, |s.entries|) && LeavesOwners(h)
    requires t in s.streams && u in s.streams && t != u
    requires s.streams[t].bufferOwner == s.streams[u].bufferOwner != 0
    ensures !FreesOnce(s, h, [Destroy(t), Destroy(u)])
  {
    var owner := s.streams[t].bufferOwner;
    var s1 := Step(s, h, Destroy(t));
    DestroyFrees(s, h, t, owner);
    DestroyFrees(s1, h, u, owner);
    RunOfTwo(s, h, Destroy(t), Destroy(u));
    assert FreesOf(Run(s, h, [Destroy(t), Destroy(u)]).events, owner) == FreesOf(s.events, owner) + 2;
  }

  lemma RunOfTwo<T>(s: State<T>, h: Helper, a: Op<T>, b: Op<T>)
    requires WF(s) && Reachable(h, |s.entries|) && Enabled(s, a) && Enabled(s, b)
    ensures AllEnabled(s, [a, b]) && Run(s, h, [a, b]) == Step(Step(s, h, a), h, b)
  {
    var s1 := Step(s, h, a);
    assert [a, b][1..] == [b] && [b][1..] == [];
    assert Run(s1, h, [b]) == Run(Step(s1, h, b), h, []);
    assert Run(s, h, [a, b]) == Run(s1, h, [b]);
  }

  /** No run frees a buffer twice exactly when no two streams own one buffer at the start; sharing is all
      that breaks it, whatever the helper, and breaks it under every helper that leaves owners alone. */
  lemma FreesOnceExactlyWhen<T>(s: State<T>, h: Helper)
    requires WF(s) && Reachable(h, |s.entries|) && LeavesOwners(h)
    ensures (forall ops: seq<Op<T>> :: FreesOnce(s, h, ops)) <==> Unshared(s)
  {
    if Unshared(s) {
      forall ops: seq<Op<T>>
        ensures FreesOnce(s, h, ops)
      {
        UnsharedFreesOnce(s, h, ops);
      }
    } else {
      var t, u :| t in s.streams && u in s.streams && t != u && s.streams[t].bufferOwner != 0
                  && s.streams[t].bufferOwner == s.streams[u].bufferOwner;
      SharedFreesTwice(s, h, t, u);
    }
  }

  /** So a state is safe from it under every helper exactly when no two streams own one buffer. */
  lemma AlwaysFreesOnceExactlyWhen<T>(s: State<T>)
    requires WF(s)
    ensures (forall h: Helper, ops: seq<Op<T>> :: Reachable(h, |s.entries|) ==> FreesOnce(s, h, ops)) <==> Unshared(s)
  {
    if Unshared(s) {
      forall h: Helper, ops: seq<Op<T>> | Reachable(h, |s.entries|)
        ensures FreesOnce(s, h, ops)
      {
        UnsharedFreesOnce(s, h, ops);
      }
    } else {
      var still := Helper((k: nat) => iset{}, (k: nat) => false, (k: nat, cursor: nat, end: nat) => end);
      assert Reachable(still, |s.entries|);
      FreesOnceExactlyWhen(s, still);
    }
  }

  /** A dispatch covers the block its stream had in `was`, in the flush context it had. */
  ghost predicate OwnBlock<T>(e: Event<T>, was: map<T, Stream>) {
    e.Dispatched? ==>
      && e.stream in was && e.context == was[e.stream].flushContext
      && e.range == FlushRange(was[e.stream].blockSize, was[e.stream].length, was[e.stream].blockIndex)
  }

  /** Every dispatch since event `from` does, no stream has changed its block, and one that has lost its
      flush context has nothing more to dispatch. */
  ghost predicate Faithful<T>(s: State<T>, was: map<T, Stream>, from: nat) {
    && s.streams.Keys == was.Keys
    && (forall t :: t in was ==>
          && OwnRange(s.streams[t]) == OwnRange(was[t])
          && (s.streams[t].flushContext == was[t].flushContext || !IsDirty(s.streams[t])))
    && (forall i :: from <= i < |s.events| ==> OwnBlock(s.events[i], was))
  }

  lemma FlushFaithful<T>(s: State<T>, h: Helper, u: T, was: map<T, Stream>, from: nat)
    requires u in s.streams && Faithful(s, was, from)
    ensures Faithful(Flushed(s, h, u), was, from)
  {
  }

  lemma DestroyFaithful<T>(s: State<T>, h: Helper, u: T, was: map<T, Stream>, from: nat)
    requires u in s.streams && Faithful(s, was, from)
    ensures Faithful(Destroyed(s, h, u), was, from)
  {
    FlushFaithful(s, h, u, was, from);
  }

  lemma EntryFaithful<T>(s: State<T>, h: Helper, cursor: nat, was: map<T, Stream>, from: nat)
    requires WF(s) && cursor < |s.entries| && Faithful(s, was, from)
    ensures Faithful(FlushEntry(s, h, cursor), was, from)
  {
    FlushFaithful(s, h, s.entries[cursor], was, from);
  }

  lemma {:induction false} WalkFaithful<T>(s: State<T>, h: Helper, cursor: nat, was: map<T, Stream>, from: nat)
    requires WF(s) && Reachable(h, |s.entries|) && cursor <= s.end && Faithful(s, was, from)
    ensures Faithful(Walked(s, h, cursor), was, from)
    decreases |s.entries| - cursor
  {
    var r := Walked(s, h, cursor);
    if cursor == s.end {
      assert Faithful(r, was, from);
    } else {
      var f := FlushEntry(s, h, cursor);
      assert r == Walked(f, h, cursor + 1);
      EntryFaithful(s, h, cursor, was, from);
      WalkFaithful(f, h, cursor + 1, was, from);
      assert Faithful(r, was, from);
    }
  }

  /** Whatever goes out over a run is the block of its stream, with the offset and length of BlockTiling,
      in the stream's own flush context. */
  lemma {:induction false} RunFaithful<T>(s: State<T>, h: Helper, ops: seq<Op<T>>, was: map<T, Stream>, from: nat)
    requires WF(s) && Reachable(h, |s.entries|) && AllEnabled(s, ops) && Faithful(s, was, from)
    ensures Faithful(Run(s, h, ops), was, from)
    decreases |ops|
  {
    if ops != [] {
      var s' := Step(s, h, ops[0]);
      match ops[0] {
        case Flush(u) => FlushFaithful(s, h, u, was, from);
        case FlushAll => WalkFaithful(s, h, 0, was, from);
        case Destroy(u) => DestroyFaithful(s, h, u, was, from);
      }
      RestEnabled(s, h, ops);
      RunFaithful(s', h, ops[1..], was, from);
    }
  }

  /** A walk, turn by turn: up to the end as it stands, an entry is flushed, the end is what the callee
      made of it if there was one, and the walk goes on behind the entry with the statuses joined. */
  lemma WalkStep<T>(s: State<T>, h: Helper, cursor: nat, status: Bits)
    requires WF(s) && Reachable(h, |s.entries|) && cursor <= s.end
    ensures cursor == s.end ==> Walked(s, h, cursor) == s && Status(s, h, cursor, status) == status
    ensures cursor < s.end ==>
              var t := s.entries[cursor];
              var due := s.streams[t].active != 0 && s.streams[t].pending != 0;
              var f := Flushed(s, h, t).(end := if due then h.end(|s.events|, cursor, s.end) else s.end);
              && WF(f) && f.entries == s.entries && cursor + 1 <= f.end
              && Walked(s, h, cursor) == Walked(f, h, cursor + 1)
              && Status(s, h, cursor, status)
                 == Status(f, h, cursor + 1, status + if due then h.status(|s.events|) else iset{})
  {
  }

  /** An end that a callee moves outward is followed: the entry it brings in is flushed by the same walk. */
  lemma MovedEndIsFollowed<T>(s: State<T>, h: Helper, t: T, u: T)
    requires WF(s) && Reachable(h, |s.entries|) && s.entries == [t, u] && t != u && s.end == 1
    requires t in s.streams && u in s.streams
    requires s.streams[t].active != 0 && s.streams[t].pending != 0
    requires s.streams[u].active != 0 && s.streams[u].pending != 0
    requires forall k: nat, cursor: nat, end: nat :: h.end(k, cursor, end) == 2
    ensures Walked(s, h, 0).events == s.events + [BlockOf(t, s.streams[t])] + [BlockOf(u, s.streams[u])]
  {
    var f := FlushEntry(s, h, 0);
    WalkStep(s, h, 0, iset{});
    FlushEffect(s, h, t);
    var g := FlushEntry(f, h, 1);
    WalkStep(f, h, 1, iset{});
    FlushEffect(f, h, u);
    WalkStep(g, h, 2, iset{});
  }

  ghost predicate CleanUpTo<T>(s: State<T>, k: nat)
    requires WF(s)
  {
    forall i :: 0 <= i < k && i < |s.entries| ==>
      s.streams[s.entries[i]].active == 0 || s.streams[s.entries[i]].pending == 0
  }

  /** A walk leaves every entry before the final end clean, errors or not. */
  lemma {:induction false} WalkCleans<T>(s: State<T>, h: Helper, cursor: nat)
    requires WF(s) && Reachable(h, |s.entries|) && cursor <= s.end && CleanUpTo(s, cursor)
    ensures CleanUpTo(Walked(s, h, cursor), Walked(s, h, cursor).end)
    decreases |s.entries| - cursor
  {
    if cursor < s.end {
      var s' := FlushEntry(s, h, cursor);
      forall i | 0 <= i < cursor + 1
        ensures s'.streams[s'.entries[i]].active == 0 || s'.streams[s'.entries[i]].pending == 0
      {
        FlushAccounts(s, h, s.entries[cursor], s.entries[i]);
      }
      WalkCleans(s', h, cursor + 1);
    }
  }

  lemma {:induction false} WalkOverClean<T>(s: State<T>, h: Helper, cursor: nat, status: Bits)
    requires WF(s) && Reachable(h, |s.entries|) && cursor <= s.end && CleanUpTo(s, s.end)
    ensures Walked(s, h, cursor) == s && Status(s, h, cursor, status) == status
    decreases |s.entries| - cursor
  {
    if cursor < s.end {
      assert !IsDirty(s.streams[s.entries[cursor]]);
      assert FlushEntry(s, h, cursor) == s;
      assert status + iset{} == status;
      WalkOverClean(s, h, cursor + 1, status);
    }
  }

  /** A repeated collection flush answers zero and does nothing. */
  lemma SecondFlushIdle<T>(s: State<T>, h: Helper)
    requires WF(s) && Reachable(h, |s.entries|)
    ensures var s' := Walked(s, h, 0); Walked(s', h, 0) == s' && Status(s', h, 0, iset{}) == iset{}
  {
    WalkCleans(s, h, 0);
    WalkOverClean(Walked(s, h, 0), h, 0, iset{});
  }

  /** What a collection flush covers: an entry before the final end had its pending block dispatched by
      this very flush, once, if it had one. */
  lemma FlushAllDispatches<T>(s: State<T>, h: Helper, i: nat)
    requires WF(s) && Reachable(h, |s.entries|) && i < Walked(s, h, 0).end
    ensures var t, s' := s.entries[i], Walked(s, h, 0);
            Dispatches(s'.events, t)
            == Dispatches(s.events, t) + if s.streams[t].active != 0 && s.streams[t].pending != 0 then 1 else 0
  {
    var t, s' := s.entries[i], Walked(s, h, 0);
    assert s'.streams[t].active == 0 || s'.streams[t].pending == 0 by {
      WalkCleans(s, h, 0);
    }
    assert BlocksDue(s', t) == BlocksDue(s, t) by {
      WalkAccounts(s, h, 0, t);
    }
  }

  // ---------------------------------------------------------------------------------------------
  // Statuses
  // ---------------------------------------------------------------------------------------------

  /** Some call among events [from, to) raised bit `b`. */
  ghost predicate RaisedBetween(h: Helper, from: nat, to: nat, b: bv5) {
    exists k: nat :: from <= k < to && b in h.status(k)
  }

  lemma {:induction false} StatusGathers<T>(s: State<T>, h: Helper, cursor: nat, status: Bits, b: bv5)
    requires WF(s) && Reachable(h, |s.entries|) && cursor <= s.end
    ensures |s.events| <= |Walked(s, h, cursor).events|
    ensures b in Status(s, h, cursor, status) <==>
              b in status || RaisedBetween(h, |s.events|, |Walked(s, h, cursor).events|, b)
    decreases |s.entries| - cursor
  {
    if cursor < s.end {
      var s', one := FlushEntry(s, h, cursor), FlushStatus(s, h, s.entries[cursor]);
      StatusGathers(s', h, cursor + 1, status + one, b);
      var to := |Walked(s', h, cursor + 1).events|;
      assert RaisedBetween(h, |s.events|, to, b) <==> b in one || RaisedBetween(h, |s'.events|, to, b) by {
        assert forall k: nat :: |s.events| <= k < |s'.events| ==> k == |s.events| && one == h.status(k);
      }
    }
  }

  /** The result of a collection flush is the union of the statuses of all the calls it made, those
      after an error included: no error is lost and none invented. */
  lemma FlushAllStatus<T>(s: State<T>, h: Helper, b: bv5)
    requires WF(s) && Reachable(h, |s.entries|)
    ensures b in Status(s, h, 0, iset{}) <==> RaisedBetween(h, |s.events|, |Walked(s, h, 0).events|, b)
  {
    StatusGathers(s, h, 0, iset{}, b);
  }

  // ---------------------------------------------------------------------------------------------
  // Destroy
  // ---------------------------------------------------------------------------------------------

  /** Destroying flushes before it frees, frees the owner found after the flush, and leaves nothing to
      destroy. */
  lemma DestroyOrder<T>(s: State<T>, h: Helper, t: T)
    requires t in s.streams
    ensures var s', st := Destroyed(s, h, t), s.streams[t];
            var due := st.active != 0 && st.pending != 0;
            && (st.bufferOwner == 0 ==> s' == s)
            && (st.bufferOwner != 0 ==>
                  && s' == s.(events := s'.events, streams := s.streams[t := s'.streams[t]])
                  && s'.streams[t] == st.(pending := if due then 0 else st.pending, flushContext := 0, bufferOwner := 0)
                  && s'.events == s.events
                       + (if due then [BlockOf(t, st)] else [])
                       + (if due && h.dropsOwner(|s.events|) then [] else [Freed(t, st.bufferOwner)]))
            && Destroyed(s', h, t) == s'
  {
    FlushEffect(s, h, t);
  }
}
