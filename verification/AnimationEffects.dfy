/** What each wheel, reference and animation operation leaves, word by word and bucket by bucket: for every
    object its words after the operation in terms of the words before, and for every bucket its nodes. */
module AnimationEffects {
  import opened Words
  import opened WheelModel
  import opened AnimationModel
  import opened AnimationRuns

  // ---------------------------------------------------------------------------------------------
  // Wheel
  // ---------------------------------------------------------------------------------------------

  /** A rank with a bucket. */
  predicate HasBucket(rank: u32) {
    1 <= rank <= BUCKETS
  }

  /** `a` is on the wheel at the head of the bucket of its rank, or off it if there is no such bucket, and
      every other node is where it was. */
  ghost predicate PlacedByRank<T>(s: State<T>, r: State<T>, a: T) {
    && a in r.objs && |s.buckets| == |r.buckets| == BUCKETS
    && (r.objs[a].flags.linked <==> HasBucket(r.objs[a].rank))
    && (forall b :: 0 <= b < BUCKETS ==>
          r.buckets[b] == (if r.objs[a].rank == b + 1 then [a] else []) + Delete(s.buckets[b], a))
  }

  /** `a` is off the wheel, and every other node is where it was. */
  ghost predicate TakenOff<T>(s: State<T>, r: State<T>, a: T) {
    && a in r.objs && |s.buckets| == |r.buckets| == BUCKETS
    && !r.objs[a].flags.linked
    && (forall b :: 0 <= b < BUCKETS ==> r.buckets[b] == Delete(s.buckets[b], a))
  }

  lemma UnlinkTakesOff<T>(s: State<T>, a: T)
    requires WF(s) && a in s.objs
    ensures TakenOff(s, Unlink(s, a), a)
    ensures Unlink(s, a).objs == s.objs[a := s.objs[a].(flags := s.objs[a].flags.(linked := false))]
  {
    if s.objs[a].flags.linked {
      UnlinkedIs(s, a);
    } else {
      assert s.objs[a := s.objs[a]] == s.objs;
    }
  }

  /** Onto the wheel: an unlinked node goes to the head of the bucket of its rank, if there is one. */
  lemma LinkPuts<T>(u: State<T>, a: T)
    requires a in u.objs && |u.buckets| == BUCKETS && !u.objs[a].flags.linked && Insertable(u.objs[a].rank)
    ensures var r, o := Link(u, a), u.objs[a];
            && r.objs == u.objs[a := o.(flags := o.flags.(linked := HasBucket(o.rank)))]
            && |r.buckets| == BUCKETS && r.live == u.live && r.drained == u.drained
            && (forall b :: 0 <= b < BUCKETS ==> r.buckets[b] == (if o.rank == b + 1 then [a] else []) + u.buckets[b])
  {
    var r, o := Link(u, a), u.objs[a];
    assert HasBucket(o.rank) <==> Signed(Bucket(o.rank)) >= 0;
    if !HasBucket(o.rank) {
      assert u.objs[a := o.(flags := o.flags.(linked := false))] == u.objs;
    }
  }

  /** `timing_wheel_insert`: a linked node stays where it is. */
  lemma InsertEffect<T>(s: State<T>, n: T)
    requires WF(s) && Enabled(s, Insert(n))
    ensures var r := Step(s, Insert(n));
            if s.objs[n].flags.linked then r == s
            else PlacedByRank(s, r, n) && r.objs == s.objs[n := s.objs[n].(flags := r.objs[n].flags)]
                 && r.objs[n].flags == s.objs[n].flags.(linked := HasBucket(s.objs[n].rank))
                 && r.live == s.live && r.drained == s.drained
  {
    if !s.objs[n].flags.linked {
      LinkPuts(s, n);
    }
  }

  /** `timing_wheel_remove` */
  lemma RemoveEffect<T>(s: State<T>, n: T)
    requires WF(s) && Enabled(s, Remove(n))
    ensures var r := Step(s, Remove(n));
            && TakenOff(s, r, n) && r.live == s.live && r.drained == s.drained
            && r.objs == s.objs[n := s.objs[n].(flags := s.objs[n].flags.(linked := false))]
  {
    UnlinkTakesOff(s, n);
  }

  // ---------------------------------------------------------------------------------------------
  // References
  // ---------------------------------------------------------------------------------------------

  /** Bit 1 of the word, and the word without its two low bits. */
  predicate CountedWord(word: u32) {
    word / 2 % 2 == 1
  }

  /** `retain_value`, on the flags word. */
  lemma RetainEffect<T>(s: State<T>, v: T)
    requires Enabled(s, RetainOutside(v))
    ensures var r, word := Step(s, RetainOutside(v)), s.objs[v].flags.Word();
            && r == s.(objs := s.objs[v := s.objs[v].(flags := r.objs[v].flags)])
            && r.objs[v].flags.Word() == if CountedWord(word) then Wrap(word + 4) else word
  {
    FlagsWord(s.objs[v].flags, 0);
    if s.objs[v].flags.counted {
      FlagsStep(s.objs[v].flags);
    }
  }

  /** `release_refcounted_value`: the deleting destructor is called once if the word that is left is below
      four, and not otherwise. */
  lemma ReleaseEffect<T>(s: State<T>, v: T)
    requires Enabled(s, ReleaseOutside(v))
    ensures var r, word := Step(s, ReleaseOutside(v)), s.objs[v].flags.Word();
            && r == s.(objs := s.objs[v := s.objs[v].(flags := r.objs[v].flags)], drained := r.drained)
            && r.objs[v].flags.Word() == (if CountedWord(word) then Wrap(word - 4) else word)
            && r.drained == s.drained + if CountedWord(word) && Wrap(word - 4) < 4 then multiset{v} else multiset{}
  {
    FlagsWord(s.objs[v].flags, 0);
    if s.objs[v].flags.counted {
      FlagsStep(s.objs[v].flags);
    }
  }

  // ---------------------------------------------------------------------------------------------
  // Construction
  // ---------------------------------------------------------------------------------------------

  /** `fixed_value_init`: the words of the object, and nothing else changed. */
  lemma NewValueEffect<T>(s: State<T>, v: T, raw: Obj<T>, q16: u32)
    requires Enabled(s, NewValue(v, raw, q16))
    ensures var r := Step(s, NewValue(v, raw, q16));
            && r == s.(objs := s.objs[v := r.objs[v]])
            && r.objs[v].vtable == 0x0898_6998 && r.objs[v].word04 == q16 && r.objs[v].rank == 0
            && r.objs[v].flags.Word() == 0
            && Slots(r.objs[v]) == Slots(raw)
  {
  }

  /** `animation_default_init`: the words of the object, and nothing else changed. */
  lemma DefaultInitEffect<T>(s: State<T>, a: T, raw: Obj<T>)
    requires Enabled(s, DefaultInit(a, raw))
    ensures var r := Step(s, DefaultInit(a, raw));
            && r == s.(objs := s.objs[a := r.objs[a]], live := s.live + {a})
            && r.objs[a].vtable == 0x0898_7f00 && r.objs[a].word04 == raw.word04 && r.objs[a].rank == raw.rank
            && r.objs[a].flags.Word() == 0 && Slots(r.objs[a]) == [None, None, None]
  {
  }

  // ---------------------------------------------------------------------------------------------
  // Rebinding
  // ---------------------------------------------------------------------------------------------

  /** A count moved by `d`, modulo its width, if the object is counted. */
  ghost predicate CountMoved(before: Flags, after: Flags, d: int) {
    && after.counted == before.counted
    && after.count == if before.counted then (before.count + d) % 0x4000_0000 else before.count
  }

  /** What retaining `news` and releasing `olds` leaves of every object: its count moved by the difference,
      and for all but `a` every other word as it was. */
  ghost predicate Exchanged<T>(s: State<T>, r: State<T>, a: T, news: seq<Option<T>>, olds: seq<Option<T>>) {
    && r.objs.Keys == s.objs.Keys
    && (forall n :: n in s.objs ==>
          CountMoved(s.objs[n].flags, r.objs[n].flags, Occurrences(news, Some(n)) - Occurrences(olds, Some(n))))
    && (forall n :: n in s.objs && n != a ==>
          r.objs[n] == s.objs[n].(flags := s.objs[n].flags.(count := r.objs[n].flags.count)))
  }

  lemma ExchangeIs<T>(s: State<T>, news: seq<Option<T>>, olds: seq<Option<T>>, n: T)
    requires AllTracked(s, news) && AllTracked(s, olds) && n in s.objs
    ensures var o, d := Exchange(s, news, olds).objs[n], Occurrences(news, Some(n)) - Occurrences(olds, Some(n));
            o == s.objs[n].(flags := o.flags) && Moves(s.objs[n].flags, o.flags, d)
  {
    ExchangeShifts(s, news, olds, n);
  }

  lemma MovesIsMoved(before: Flags, after: Flags, d: int)
    requires Moves(before, after, d)
    ensures CountMoved(before, after, d) && after == before.(count := after.count)
  {
  }

  /** Exchanged is what an exchange does. */
  lemma ExchangeExchanges<T>(s: State<T>, a: T, news: seq<Option<T>>, olds: seq<Option<T>>)
    requires AllTracked(s, news) && AllTracked(s, olds)
    ensures Exchanged(s, Exchange(s, news, olds), a, news, olds)
    ensures forall n :: n in s.objs ==>
              Exchange(s, news, olds).objs[n]
              == s.objs[n].(flags := s.objs[n].flags.(count := Exchange(s, news, olds).objs[n].flags.count))
  {
    var e := Exchange(s, news, olds);
    forall n | n in s.objs
      ensures CountMoved(s.objs[n].flags, e.objs[n].flags, Occurrences(news, Some(n)) - Occurrences(olds, Some(n)))
      ensures e.objs[n] == s.objs[n].(flags := s.objs[n].flags.(count := e.objs[n].flags.count))
    {
      ExchangeIs(s, news, olds, n);
      MovesIsMoved(s.objs[n].flags, e.objs[n].flags, Occurrences(news, Some(n)) - Occurrences(olds, Some(n)));
    }
  }

  /** Exchanged does not look at what `a` is besides its count, before or after. */
  lemma ExchangedBut<T>(s: State<T>, u: State<T>, e: State<T>, r: State<T>, a: T,
                        news: seq<Option<T>>, olds: seq<Option<T>>)
    requires a in s.objs && a in u.objs && a in e.objs && a in r.objs
    requires Exchanged(u, e, a, news, olds)
    requires u.objs == s.objs[a := u.objs[a]] && r.objs == e.objs[a := r.objs[a]]
    requires u.objs[a].flags == s.objs[a].flags.(linked := u.objs[a].flags.linked)
    requires r.objs[a].flags == e.objs[a].flags.(linked := r.objs[a].flags.linked)
    ensures Exchanged(s, r, a, news, olds)
  {
    forall n | n in s.objs
      ensures CountMoved(s.objs[n].flags, r.objs[n].flags, Occurrences(news, Some(n)) - Occurrences(olds, Some(n)))
    {
      assert CountMoved(u.objs[n].flags, e.objs[n].flags, Occurrences(news, Some(n)) - Occurrences(olds, Some(n)));
    }
  }

  /** A node taken off, its references exchanged and its words rewritten, before it is put back. */
  lemma ReboundIs<T>(s: State<T>, a: T, news: seq<Option<T>>, olds: seq<Option<T>>,
                     from: Option<T>, to: Option<T>, current: Option<T>, rank: u32)
    requires WF(s) && a in s.objs && AllTracked(s, news) && AllTracked(s, olds)
    ensures var r := Rebound(s, a, news, olds, from, to, current, rank);
            && Exchanged(s, r, a, news, olds) && TakenOff(s, r, a) && r.live == s.live
            && r.objs[a] == s.objs[a].(from := from, to := to, current := current, rank := rank,
                                       flags := r.objs[a].flags)
  {
    var u := Unlink(s, a);
    UnlinkTakesOff(s, a);
    ExchangeExchanges(u, a, news, olds);
    ExchangedBut(s, u, Exchange(u, news, olds), Rebound(s, a, news, olds, from, to, current, rank), a, news, olds);
  }

  /** An exchange, seen past any later change to flags of `a` that leaves its count. */
  lemma ExchangedOnward<T>(s: State<T>, u: State<T>, r: State<T>, a: T, news: seq<Option<T>>, olds: seq<Option<T>>)
    requires Exchanged(s, u, a, news, olds) && a in u.objs && a in r.objs
    requires r.objs == u.objs[a := r.objs[a]] && r.objs[a].flags == u.objs[a].flags.(linked := r.objs[a].flags.linked)
    ensures Exchanged(s, r, a, news, olds)
  {
    forall n | n in s.objs
      ensures CountMoved(s.objs[n].flags, r.objs[n].flags, Occurrences(news, Some(n)) - Occurrences(olds, Some(n)))
    {
      assert CountMoved(s.objs[n].flags, u.objs[n].flags, Occurrences(news, Some(n)) - Occurrences(olds, Some(n)));
    }
  }

  lemma PlacedOnward<T>(s: State<T>, u: State<T>, a: T)
    requires TakenOff(s, u, a) && Insertable(u.objs[a].rank)
    ensures PlacedByRank(s, Link(u, a), a)
  {
    LinkPuts(u, a);
  }

  /** Such a node put back by its new rank. */
  lemma RelinkIs<T>(s: State<T>, u: State<T>, a: T, news: seq<Option<T>>, olds: seq<Option<T>>)
    requires Exchanged(s, u, a, news, olds) && TakenOff(s, u, a) && a in s.objs && Insertable(u.objs[a].rank)
    ensures var r := Link(u, a);
            && Exchanged(s, r, a, news, olds) && PlacedByRank(s, r, a) && r.live == u.live
            && r.objs[a] == u.objs[a].(flags := r.objs[a].flags)
  {
    LinkPuts(u, a);
    ExchangedOnward(s, u, Link(u, a), a, news, olds);
    PlacedOnward(s, u, a);
  }

  /** The two together. */
  lemma RebindIs<T>(s: State<T>, a: T, news: seq<Option<T>>, olds: seq<Option<T>>,
                    from: Option<T>, to: Option<T>, current: Option<T>, rank: u32)
    requires WF(s) && a in s.objs && AllTracked(s, news) && AllTracked(s, olds) && Insertable(rank)
    ensures var r := Link(Rebound(s, a, news, olds, from, to, current, rank), a);
            && Exchanged(s, r, a, news, olds) && PlacedByRank(s, r, a) && r.live == s.live
            && r.objs[a] == s.objs[a].(from := from, to := to, current := current, rank := rank,
                                       flags := r.objs[a].flags)
  {
    var u := Rebound(s, a, news, olds, from, to, current, rank);
    ReboundIs(s, a, news, olds, from, to, current, rank);
    RelinkIs(s, u, a, news, olds);
  }

  lemma RankOverIs<T>(s: State<T>, c: T, f: T, t: T)
    requires c in s.objs && f in s.objs && t in s.objs
    ensures RankOver(s, c, f, t) == Wrap(Max(s.objs[c].rank, Max(s.objs[f].rank, s.objs[t].rank)) + 1)
  {
  }

  /** What a full rebind leaves in `r`. */
  ghost predicate ReboundOver<T>(s: State<T>, r: State<T>, a: T, c: T, f: T, t: T)
    requires a in s.objs && c in s.objs && f in s.objs && t in s.objs
  {
    var o := s.objs[a];
    && Exchanged(s, r, a, [Some(c), Some(f), Some(t)], [o.current, o.from, o.to])
    && PlacedByRank(s, r, a) && r.live == s.live
    && r.objs[a] == o.(from := Some(f), to := Some(t), current := Some(c), flags := r.objs[a].flags,
                       rank := Wrap(Max(s.objs[c].rank, Max(s.objs[f].rank, s.objs[t].rank)) + 1))
  }

  /** `animation_set_values`: all slots, the rank over the three values, and the place that goes with it. */
  lemma SetValuesEffect<T>(s: State<T>, a: T, c: T, f: T, t: T)
    requires WF(s) && Enabled(s, SetValues(a, c, f, t))
    ensures ReboundOver(s, Step(s, SetValues(a, c, f, t)), a, c, f, t)
  {
    var o, rank := s.objs[a], RankOver(s, c, f, t);
    var olds := [o.current, o.from, o.to];
    assert olds == Slots(o);
    RankOverIs(s, c, f, t);
    RebindIs(s, a, [Some(c), Some(f), Some(t)], olds, Some(f), Some(t), Some(c), rank);
  }

  /** What a rebind of the current value leaves in `r`. */
  ghost predicate ReboundCurrent<T>(s: State<T>, r: State<T>, a: T, v: T)
    requires a in s.objs && v in s.objs
  {
    var o := s.objs[a];
    && Exchanged(s, r, a, [Some(v)], [o.current])
    && PlacedByRank(s, r, a) && r.live == s.live
    && r.objs[a] == o.(current := Some(v), flags := r.objs[a].flags,
                       rank := Max(o.rank, Wrap(s.objs[v].rank + 1)))
  }

  /** `animation_set_current_value`: the current slot alone, the rank raised if the value asks for it, and
      the place that goes with it. */
  lemma SetCurrentEffect<T>(s: State<T>, a: T, v: T)
    requires WF(s) && Enabled(s, SetCurrent(a, v))
    ensures ReboundCurrent(s, Step(s, SetCurrent(a, v)), a, v)
  {
    var o, rank := s.objs[a], RankRaised(s, a, v);
    RebindIs(s, a, [Some(v)], [o.current], o.from, o.to, Some(v), rank);
  }

  /** What a destroy leaves in `r`. */
  ghost predicate TornDown<T>(s: State<T>, r: State<T>, a: T)
    requires a in s.objs
  {
    var o := s.objs[a];
    && Exchanged(s, r, a, [], [o.current, o.from, o.to])
    && TakenOff(s, r, a) && r.live == s.live - {a}
    && r.objs[a] == o.(vtable := 0x0898_4ca0, flags := r.objs[a].flags)
  }

  lemma ReleasedIs<T>(s: State<T>, a: T, olds: seq<Option<T>>, vtable: u32)
    requires WF(s) && a in s.objs && AllTracked(s, olds)
    ensures var e := Exchange(s, [], olds);
            var p := Put(e, a, e.objs[a].(vtable := vtable)).(live := s.live - {a});
            && WF(p) && Exchanged(s, p, a, [], olds) && p.buckets == s.buckets
            && p.objs[a] == s.objs[a].(vtable := vtable, flags := p.objs[a].flags)
  {
    var e := Exchange(s, [], olds);
    var p := Put(e, a, e.objs[a].(vtable := vtable)).(live := s.live - {a});
    ExchangeCountsOnly(s, [], olds);
    CountsOnlyKeepsWF(s, e.objs, e.drained);
    ExchangeExchanges(s, a, [], olds);
    PutKeepsWF(e, a, p.objs[a], p.live);
    ExchangedBut(s, s, e, p, a, [], olds);
  }

  /** An unlinking after that. */
  lemma TakenOffIs<T>(s: State<T>, p: State<T>, a: T, olds: seq<Option<T>>)
    requires WF(p) && a in s.objs && Exchanged(s, p, a, [], olds) && p.buckets == s.buckets
    ensures var r := Unlink(p, a);
            && Exchanged(s, r, a, [], olds) && TakenOff(s, r, a) && r.live == p.live
            && r.objs[a] == p.objs[a].(flags := r.objs[a].flags)
  {
    UnlinkTakesOff(p, a);
    ExchangedOnward(s, p, Unlink(p, a), a, [], olds);
  }

  /** `animation_destroy`: off the wheel, base vtable, no longer the owner of the slots it still shows. */
  lemma DestroyEffect<T>(s: State<T>, a: T)
    requires WF(s) && Enabled(s, Destroy(a))
    ensures TornDown(s, Step(s, Destroy(a)), a)
  {
    var o := s.objs[a];
    var olds := [o.current, o.from, o.to];
    assert olds == Slots(o);
    var e := Exchange(s, [], olds);
    ReleasedIs(s, a, olds, 0x0898_4ca0);
    TakenOffIs(s, Put(e, a, e.objs[a].(vtable := 0x0898_4ca0)).(live := s.live - {a}), a, olds);
  }

  /** What `animation_init` leaves in `r`: the words of the new animation, one reference taken for each
      slot, and the place that goes with the rank. */
  ghost predicate BuiltOver<T>(s: State<T>, r: State<T>, a: T, raw: Obj<T>, c: T, f: T, t: T)
    requires c in s.objs && f in s.objs && t in s.objs
  {
    var blank := raw.(flags := Flags(false, false, 0));
    && Exchanged(s.(objs := s.objs[a := blank]), r, a, [Some(c), Some(f), Some(t)], [])
    && PlacedByRank(s, r, a) && r.live == s.live + {a}
    && r.objs[a] == blank.(vtable := 0x0898_7f00, from := Some(f), to := Some(t), current := Some(c),
                           rank := Wrap(Max(s.objs[c].rank, Max(s.objs[f].rank, s.objs[t].rank)) + 1),
                           flags := r.objs[a].flags)
  }

  /** Empty slots give nothing back, and of the new object the exchange has seen the flags only. */
  lemma FreshExchange<T>(s: State<T>, r: State<T>, a: T, o: Obj<T>, p: Obj<T>, news: seq<Option<T>>)
    requires Exchanged(s.(objs := s.objs[a := o]), r, a, news, [None, None, None]) && p.flags == o.flags
    ensures Exchanged(s.(objs := s.objs[a := p]), r, a, news, [])
  {
    forall n | n in s.objs[a := o]
      ensures Occurrences<Option<T>>([None, None, None], Some(n)) == Occurrences<Option<T>>([], Some(n))
    {
      NoOccurrences(n);
    }
  }

  /** The new animation before it is put on the wheel. */
  ghost function Unplaced<T>(s: State<T>, a: T, raw: Obj<T>, c: T, f: T, t: T): State<T>
    requires Enabled(s, Init(a, raw, c, f, t))
  {
    var b := Rebound(Put(s, a, Constructed(raw)), a, [Some(c), Some(f), Some(t)], [None, None, None],
                     Some(f), Some(t), Some(c), RankOver(s, c, f, t));
    b.(live := b.live + {a})
  }

  lemma UnplacedIs<T>(s: State<T>, a: T, raw: Obj<T>, c: T, f: T, t: T)
    requires WF(s) && Enabled(s, Init(a, raw, c, f, t))
    ensures var u, p := Unplaced(s, a, raw, c, f, t), Put(s, a, Constructed(raw));
            && Exchanged(p, u, a, [Some(c), Some(f), Some(t)], [None, None, None])
            && TakenOff(p, u, a) && u.live == s.live + {a}
            && u.objs[a] == Constructed(raw).(from := Some(f), to := Some(t), current := Some(c),
                                              rank := RankOver(s, c, f, t), flags := u.objs[a].flags)
  {
    PutKeepsWF(s, a, Constructed(raw), s.live);
    ReboundIs(Put(s, a, Constructed(raw)), a, [Some(c), Some(f), Some(t)], [None, None, None],
              Some(f), Some(t), Some(c), RankOver(s, c, f, t));
  }

  lemma InitIs<T>(s: State<T>, a: T, raw: Obj<T>, c: T, f: T, t: T)
    requires WF(s) && Enabled(s, Init(a, raw, c, f, t))
    ensures var r, p := Initialized(s, a, raw, c, f, t), Put(s, a, Constructed(raw));
            && Exchanged(p, r, a, [Some(c), Some(f), Some(t)], [None, None, None])
            && PlacedByRank(p, r, a) && r.live == s.live + {a}
            && r.objs[a] == Constructed(raw).(from := Some(f), to := Some(t), current := Some(c),
                                              rank := RankOver(s, c, f, t), flags := r.objs[a].flags)
  {
    UnplacedIs(s, a, raw, c, f, t);
    RelinkIs(Put(s, a, Constructed(raw)), Unplaced(s, a, raw, c, f, t), a,
             [Some(c), Some(f), Some(t)], [None, None, None]);
  }

  /** `animation_init` */
  lemma InitEffect<T>(s: State<T>, a: T, raw: Obj<T>, c: T, f: T, t: T)
    requires WF(s) && Enabled(s, Init(a, raw, c, f, t))
    ensures BuiltOver(s, Step(s, Init(a, raw, c, f, t)), a, raw, c, f, t)
  {
    InitIs(s, a, raw, c, f, t);
    RankOverIs(s, c, f, t);
    FreshExchange(s, Initialized(s, a, raw, c, f, t), a, Constructed(raw), raw.(flags := Flags(false, false, 0)),
                  [Some(c), Some(f), Some(t)]);
  }
}
