/** The animation operations as the source performs them, on wheel nodes in place. Each keeps the
    wheel valid and takes its simple form to exactly the state AnimationModel gives. */
module Animations {
  import opened Words
  import opened WheelModel
  import opened TimingWheel
  import opened AnimationModel
  import opened AnimationRuns

  /** `retain_value` */
  method RetainValue(v: Node)
    modifies v`flags
    ensures v.flags == old(v.flags).Moved(1)
  {
    if v.flags.counted {
      v.flags := v.flags.(count := (v.flags.count + 1) % TWO_30);
    }
  }

  /** `release_refcounted_value`; a drained object's deleting destructor is only reported. */
  method ReleaseValue(v: Node) returns (drained: bool)
    modifies v`flags
    ensures v.flags == old(v.flags).Moved(-1)
    ensures drained <==> v.flags.counted && v.flags.count == 0
  {
    if !v.flags.counted {
      return false;
    }
    v.flags := v.flags.(count := (v.flags.count - 1) % TWO_30);
    return v.flags.count == 0;
  }

  /** A snapshot for a write to `n` alone that spares its link words. */
  lemma Snapshot(w: Wheel, n: Node)
    requires w.Valid() && n in w.objects
    ensures WF(w.View()) && w.WiredBy(Links(w.objects)) && w.View().objs[n] == n.Image()
  {
    w.WiredBoth();
  }

  lemma Restored(w: Wheel, n: Node, before: map<Node, Obj<Node>>, links: map<Node, (Node?, Node?)>, s: State<Node>)
    requires before.Keys == w.objects && n in w.objects
    requires forall m :: m in w.objects && m != n ==> m.Image() == before[m]
    requires w.WiredBy(links)
    requires forall m :: m in w.objects ==> (m.prev, m.next) == links[m]
    requires s == State(w.buckets, before[n := n.Image()], w.live, w.drained) && WF(s)
    ensures w.Valid() && w.View() == s
  {
    ImagesExcept(w.objects, before, n);
    assert Links(w.objects) == links;
    w.WiredBoth();
  }

  method Retained(w: Wheel, v: Node)
    requires w.Valid() && v in w.objects
    modifies v`flags
    ensures w.Valid() && w.View() == Retain(old(w.View()), v)
  {
    ghost var s, links := w.View(), Links(w.objects);
    RetainKeepsWF(s, v);
    Snapshot(w, v);
    RetainValue(v);
    Restored(w, v, s.objs, links, Retain(s, v));
  }

  method Released(w: Wheel, v: Node)
    requires w.Valid() && v in w.objects
    modifies v`flags, w`drained
    ensures w.Valid() && w.View() == Release(old(w.View()), v)
  {
    ghost var s, links := w.View(), Links(w.objects);
    RetainKeepsWF(s, v);
    Snapshot(w, v);
    var drained := ReleaseValue(v);
    if drained {
      w.drained := w.drained + multiset{v};
    }
    Restored(w, v, s.objs, links, Release(s, v));
  }

  method ReleasedSlot(w: Wheel, slot: Node?)
    requires w.Valid() && (slot != null ==> slot in w.objects)
    modifies (if slot == null then {} else {slot})`flags, w`drained
    ensures w.Valid() && w.View() == ReleaseSlot(old(w.View()), Ref(slot))
  {
    if slot != null {
      Released(w, slot);
    }
  }

  /** The retains of a full rebind, in argument order. */
  method RetainedThree(w: Wheel, current: Node, from: Node, to: Node)
    requires w.Valid() && current in w.objects && from in w.objects && to in w.objects
    modifies current`flags, from`flags, to`flags
    ensures w.Valid() && w.View() == RetainAll(old(w.View()), [Some(current), Some(from), Some(to)])
  {
    ghost var s := w.View();
    Retained(w, current);
    Retained(w, from);
    Retained(w, to);
    RetainThree(s, current, from, to);
  }

  /** The guarded releases of a full rebind and of the destructor: current, from, to. */
  method ReleasedThree(w: Wheel, a: Node)
    requires w.Valid() && a in w.objects && SlotsOk(w.View().objs, a)
    modifies w.objects`flags, w`drained
    ensures w.Valid() && w.View() == ReleaseAll(old(w.View()), Slots(old(a.Image())))
  {
    ghost var s := w.View();
    assert s.objs[a] == a.Image();
    var oldCurrent := a.currentValue;
    ReleasedSlot(w, oldCurrent);
    var oldFrom := a.fromValue;
    ReleasedSlot(w, oldFrom);
    var oldTo := a.toValue;
    ReleasedSlot(w, oldTo);
    ReleaseThree(s, Ref(oldCurrent), Ref(oldFrom), Ref(oldTo));
  }

  /** The three slot stores, then the rank from the aux words of the values now stored. */
  method StoreValues(a: Node, current: Node, from: Node, to: Node)
    modifies a`fromValue, a`toValue, a`currentValue, a`rank
    ensures a.fromValue == from && a.toValue == to && a.currentValue == current
    ensures a.rank == Wrap(Highest(old(from.rank), old(to.rank), old(current.rank)) + 1)
  {
    a.fromValue := from;
    a.toValue := to;
    a.currentValue := current;
    var highest: int := Highest(from.rank, to.rank, current.rank);
    a.rank := Wrap(highest + 1);
  }

  /** The current-value store, then the rank raised to one past its aux word. */
  method StoreCurrent(a: Node, value: Node)
    modifies a`currentValue, a`rank
    ensures a.currentValue == value
    ensures a.rank == Max(old(a.rank), Wrap(old(value.rank) + 1))
  {
    a.currentValue := value;
    var candidate := Wrap(value.rank + 1);
    if a.rank < candidate {
      a.rank := candidate;
    }
  }

  method BoundValues(w: Wheel, a: Node, current: Node, from: Node, to: Node)
    requires w.Valid() && a in w.objects && !a.flags.linked
    requires current in w.objects && from in w.objects && to in w.objects
    modifies a`fromValue, a`toValue, a`currentValue, a`rank
    ensures w.Valid()
    ensures var s := old(w.View());
            w.View() == Put(s, a, s.objs[a].(from := Some(from), to := Some(to), current := Some(current),
                                             rank := RankOver(s, current, from, to)))
  {
    ghost var s, links := w.View(), Links(w.objects);
    assert s.objs[from].rank == from.rank && s.objs[to].rank == to.rank && s.objs[current].rank == current.rank;
    ghost var rank := Wrap(Highest(from.rank, to.rank, current.rank) + 1);
    assert RankOver(s, current, from, to) == rank;
    ghost var o := a.Image().(from := Some(from), to := Some(to), current := Some(current), rank := rank);
    Snapshot(w, a);
    PutKeepsWF(s, a, o, s.live);
    StoreValues(a, current, from, to);
    assert a.Image() == o;
    Restored(w, a, s.objs, links, Put(s, a, o));
  }

  method BoundCurrent(w: Wheel, a: Node, value: Node)
    requires w.Valid() && a in w.objects && !a.flags.linked && value in w.objects
    requires SlotsOk(w.View().objs, a)
    modifies a`currentValue, a`rank
    ensures w.Valid()
    ensures var s := old(w.View());
            w.View() == Put(s, a, s.objs[a].(current := Some(value), rank := RankRaised(s, a, value)))
  {
    ghost var s, links := w.View(), Links(w.objects);
    assert s.objs[a].rank == a.rank && s.objs[value].rank == value.rank;
    ghost var rank := Max(a.rank, Wrap(value.rank + 1));
    assert RankRaised(s, a, value) == rank;
    ghost var o := a.Image().(current := Some(value), rank := rank);
    Snapshot(w, a);
    PutKeepsWF(s, a, o, s.live);
    StoreCurrent(a, value);
    assert a.Image() == o;
    Restored(w, a, s.objs, links, Put(s, a, o));
  }

  /** An exchange leaves ranks and linked bits as they were. */
  lemma ExchangeSpares(s: State<Node>, news: seq<Option<Node>>, olds: seq<Option<Node>>, v: Node)
    requires AllTracked(s, news) && AllTracked(s, olds) && v in s.objs
    ensures Exchange(s, news, olds).objs[v].rank == s.objs[v].rank
    ensures Exchange(s, news, olds).objs[v].flags.linked == s.objs[v].flags.linked
  {
    ExchangeShifts(s, news, olds, v);
  }

  lemma RankSpared(s: State<Node>, news: seq<Option<Node>>, olds: seq<Option<Node>>, c: Node, f: Node, t: Node)
    requires AllTracked(s, news) && AllTracked(s, olds)
    requires c in s.objs && f in s.objs && t in s.objs
    ensures RankOver(Exchange(s, news, olds), c, f, t) == RankOver(s, c, f, t)
  {
    ExchangeSpares(s, news, olds, c);
    ExchangeSpares(s, news, olds, f);
    ExchangeSpares(s, news, olds, t);
  }

  lemma RetainAllSpares(s: State<Node>, news: seq<Option<Node>>, a: Node)
    requires AllTracked(s, news) && a in s.objs
    ensures Slots(RetainAll(s, news).objs[a]) == Slots(s.objs[a])
  {
    RetainAllShifts(s, news, a);
  }

  /** Retain the new values, release the old slots, store, rank: the middle of `animation_init` and of
      `animation_set_values`, on a node off the wheel. */
  method ReassignValues(w: Wheel, a: Node, current: Node, from: Node, to: Node)
    requires w.Valid() && a in w.objects && !a.flags.linked && SlotsOk(w.View().objs, a)
    requires current in w.objects && from in w.objects && to in w.objects
    modifies w.objects, w`drained
    ensures w.Valid()
    ensures var s := old(w.View());
            w.View() == Reassign(s, a, [Some(current), Some(from), Some(to)], Slots(s.objs[a]),
                                 Some(from), Some(to), Some(current), RankOver(s, current, from, to))
  {
    ghost var s := w.View();
    ghost var news := [Some(current), Some(from), Some(to)];
    RetainAllSpares(s, news, a);
    ExchangeSpares(s, news, Slots(s.objs[a]), a);
    RankSpared(s, news, Slots(s.objs[a]), current, from, to);
    RetainedThree(w, current, from, to);
    assert w.View().objs[a] == a.Image();
    ReleasedThree(w, a);
    ghost var e := w.View();
    assert e == Exchange(s, news, Slots(s.objs[a]));
    BoundValues(w, a, current, from, to);
  }

  /** Unlinking leaves ranks and slots as they were, so what was enabled stays so. */
  lemma UnlinkSpares(s: State<Node>, a: Node, c: Node, f: Node, t: Node)
    requires WF(s) && Owner(s, a) && c in s.objs && f in s.objs && t in s.objs
    ensures var u := Unlink(s, a);
            && WF(u) && Owner(u, a) && !u.objs[a].flags.linked && u.objs.Keys == s.objs.Keys
            && Slots(u.objs[a]) == Slots(s.objs[a]) && u.objs[a].rank == s.objs[a].rank
            && RankOver(u, c, f, t) == RankOver(s, c, f, t) && RankRaised(u, a, c) == RankRaised(s, a, c)
            && SlotsOk(u.objs, a)
  {
    UnlinkKeepsWF(s, a);
  }

  /** `animation_set_values` */
  method AnimationSetValues(w: Wheel, a: Node, current: Node, from: Node, to: Node)
    requires w.Valid() && Enabled(w.View(), SetValues(a, current, from, to))
    modifies w, w.heads, w.objects
    ensures w.Valid() && w.objects == old(w.objects)
    ensures w.View() == ValuesSet(old(w.View()), a, current, from, to)
  {
    ghost var s := w.View();
    UnlinkSpares(s, a, current, from, to);
    w.Remove(a);
    assert w.View().objs[a] == a.Image();
    ReassignValues(w, a, current, from, to);
    assert w.View().objs[a] == a.Image();
    w.Insert(a);
  }

  /** Retain the new current value, then release the old one. */
  method ExchangeCurrent(w: Wheel, a: Node, value: Node)
    requires w.Valid() && a in w.objects && SlotsOk(w.View().objs, a) && value in w.objects
    modifies w.objects`flags, w`drained
    ensures w.Valid()
    ensures w.View() == Exchange(old(w.View()), [Some(value)], [old(w.View()).objs[a].current])
  {
    ghost var s := w.View();
    assert s.objs[a] == a.Image();
    Retained(w, value);
    RetainOne(s, value);
    var oldValue := a.currentValue;
    ReleasedSlot(w, oldValue);
    ReleaseOne(Retain(s, value), Ref(oldValue));
  }

  lemma RaiseSpared(s: State<Node>, a: Node, value: Node)
    requires a in s.objs && value in s.objs && SlotsOk(s.objs, a)
    ensures var e := Exchange(s, [Some(value)], [s.objs[a].current]);
            && RankRaised(e, a, value) == RankRaised(s, a, value)
            && e.objs[a] == s.objs[a].(flags := e.objs[a].flags)
            && e.objs[a].flags.linked == s.objs[a].flags.linked
            && SlotsOk(e.objs, a)
  {
    ExchangeSpares(s, [Some(value)], [s.objs[a].current], value);
    ExchangeShifts(s, [Some(value)], [s.objs[a].current], a);
  }

  /** The middle of `animation_set_current_value`. */
  method ReassignCurrent(w: Wheel, a: Node, value: Node)
    requires w.Valid() && a in w.objects && !a.flags.linked && SlotsOk(w.View().objs, a)
    requires value in w.objects
    modifies w.objects, w`drained
    ensures w.Valid()
    ensures var s := old(w.View());
            w.View() == Reassign(s, a, [Some(value)], [s.objs[a].current], s.objs[a].from, s.objs[a].to, Some(value),
                                 RankRaised(s, a, value))
  {
    ghost var s := w.View();
    assert s.objs[a] == a.Image();
    RaiseSpared(s, a, value);
    ExchangeCurrent(w, a, value);
    assert w.View().objs[a] == a.Image();
    BoundCurrent(w, a, value);
  }

  /** `animation_set_current_value` */
  method AnimationSetCurrentValue(w: Wheel, a: Node, value: Node)
    requires w.Valid() && Enabled(w.View(), SetCurrent(a, value))
    modifies w, w.heads, w.objects
    ensures w.Valid() && w.objects == old(w.objects)
    ensures w.View() == CurrentSet(old(w.View()), a, value)
  {
    ghost var s := w.View();
    UnlinkSpares(s, a, value, value, value);
    w.Remove(a);
    assert w.View().objs[a] == a.Image();
    ReassignCurrent(w, a, value);
    assert w.View().objs[a] == a.Image();
    w.Insert(a);
  }

  /** Ghost bookkeeping when storage outside the wheel has become an object. */
  ghost method Track(w: Wheel, n: Node, s: State<Node>, own: bool)
    requires n !in w.objects && s == w.View() && WF(s) && w.Wired()
    requires !n.flags.linked
    requires own ==> n.fromValue == null && n.toValue == null && n.currentValue == null
    modifies w`objects, w`live
    ensures w.Valid() && w.objects == old(w.objects) + {n}
    ensures w.View() == Put(s, n, n.Image()).(live := if own then s.live + {n} else s.live)
  {
    var live' := if own then s.live + {n} else s.live;
    PutKeepsWF(s, n, n.Image(), live');
    w.objects := w.objects + {n};
    w.live := live';
    assert Images(w.objects) == s.objs[n := n.Image()];
    assert w.View() == Put(s, n, n.Image()).(live := live');
    assert forall b :: 0 <= b < BUCKETS ==> w.Tracked(w.buckets[b]);
  }

  /** The base constructor, the derived vtable and the three empty slots. */
  method ConstructBase(a: Node)
    modifies a`vtable, a`flags, a`fromValue, a`toValue, a`currentValue
    ensures a.Image() == Constructed(old(a.Image()))
  {
    a.vtable := BASE_VTABLE;
    a.flags := Flags(false, false, 0);
    a.vtable := ANIMATION_VTABLE;
    a.fromValue := null;
    a.toValue := null;
    a.currentValue := null;
  }

  lemma Outside(w: Wheel, a: Node)
    requires w.Valid() && a !in w.objects
    ensures w.WiredBy(Links(w.objects)) && WF(w.View())
  {
    w.WiredBoth();
  }

  lemma Undisturbed(w: Wheel, a: Node, s: State<Node>, links: map<Node, (Node?, Node?)>)
    requires w.WiredBy(links) && links == Links(w.objects)
    ensures w.Wired()
  {
    w.WiredBoth();
  }

  /** From here on the animation owns its slots, or no longer does. */
  ghost method Own(w: Wheel, a: Node, own: bool)
    requires w.Valid() && a in w.objects && SlotsOk(w.View().objs, a)
    modifies w`live
    ensures w.Valid()
    ensures var s := old(w.View()); w.View() == s.(live := if own then s.live + {a} else s.live - {a})
  {
    ghost var s := w.View();
    var live' := if own then s.live + {a} else s.live - {a};
    PutKeepsWF(s, a, s.objs[a], live');
    assert s.objs[a := s.objs[a]] == s.objs;
    w.live := live';
  }

  lemma AssembledLinks(s: State<Node>, a: Node, raw: Obj<Node>, c: Node, f: Node, t: Node)
    requires Enabled(s, Init(a, raw, c, f, t))
    ensures a in Assembled(s, a, raw, c, f, t).objs
    ensures Assembled(s, a, raw, c, f, t).objs[a].rank == RankOver(s, c, f, t)
    ensures Link(Assembled(s, a, raw, c, f, t), a) == Initialized(s, a, raw, c, f, t)
  {
    var s1 := Put(s, a, Constructed(raw));
    assert Unlink(s1, a) == s1;
  }

  lemma FreshSlots(s: State<Node>, a: Node, raw: Obj<Node>, c: Node, f: Node, t: Node)
    requires a !in s.objs && c in s.objs && f in s.objs && t in s.objs
    ensures var s1 := Put(s, a, Constructed(raw));
            && Slots(s1.objs[a]) == [None, None, None] && SlotsOk(s1.objs, a) && !s1.objs[a].flags.linked
            && RankOver(s1, c, f, t) == RankOver(s, c, f, t)
  {
  }

  method ConstructTracked(w: Wheel, a: Node)
    requires w.Valid() && a !in w.objects
    modifies a, w
    ensures w.Valid() && w.objects == old(w.objects) + {a}
    ensures w.View() == Put(old(w.View()), a, Constructed(old(a.Image())))
    ensures !a.flags.linked
  {
    ghost var s := w.View();
    Outside(w, a);
    ConstructBase(a);
    Undisturbed(w, a, s, Links(w.objects));
    Track(w, a, s, false);
  }

  /** `animation_default_init`, in fresh storage */
  method AnimationDefaultInit(w: Wheel, a: Node)
    requires w.Valid() && a !in w.objects
    modifies a, w
    ensures w.Valid() && w.objects == old(w.objects) + {a}
    ensures w.View() == DefaultInitialized(old(w.View()), a, old(a.Image()))
  {
    ConstructTracked(w, a);
    Own(w, a, true);
  }

  /** A remove of a node that is not linked. */
  method RemoveIdle(w: Wheel, a: Node)
    requires w.Valid() && a in w.objects && !w.View().objs[a].flags.linked
    modifies w, w.heads, w.objects
    ensures w.Valid() && w.View() == old(w.View()) && w.objects == old(w.objects) && !a.flags.linked
  {
    assert w.View().objs[a] == a.Image();
    w.Remove(a);
    assert w.View().objs[a] == a.Image();
  }

  /** Construction in fresh storage and the defensive remove. */
  method ConstructRemoved(w: Wheel, a: Node)
    requires w.Valid() && a !in w.objects
    modifies a, w, w.heads, w.objects
    ensures w.Valid() && w.objects == old(w.objects) + {a} && !a.flags.linked
    ensures w.View() == Put(old(w.View()), a, Constructed(old(a.Image())))
  {
    ConstructTracked(w, a);
    RemoveIdle(w, a);
  }

  /** `animation_init` up to the insert. The defensive remove and the releases of the empty slots are
      performed, and change nothing. */
  method InitUnlinked(w: Wheel, a: Node, current: Node, from: Node, to: Node)
    requires w.Valid() && a !in w.objects
    requires current in w.objects && from in w.objects && to in w.objects
    modifies a, w, w.heads, w.objects
    ensures w.Valid() && w.objects == old(w.objects) + {a}
    ensures w.View() == Assembled(old(w.View()), a, old(a.Image()), current, from, to)
  {
    FreshSlots(w.View(), a, a.Image(), current, from, to);
    ConstructRemoved(w, a);
    ReassignValues(w, a, current, from, to);
    Own(w, a, true);
  }

  /** The insert of a node whose rank has a bucket. */
  method InsertRanked(w: Wheel, a: Node)
    requires w.Valid() && a in w.objects && Insertable(w.View().objs[a].rank)
    modifies w, w.heads, w.objects
    ensures w.Valid() && w.objects == old(w.objects) && w.View() == Link(old(w.View()), a)
  {
    assert w.View().objs[a] == a.Image();
    w.Insert(a);
  }

  /** `animation_init`, in fresh storage */
  method AnimationInit(w: Wheel, a: Node, current: Node, from: Node, to: Node)
    requires w.Valid() && Enabled(w.View(), Init(a, a.Image(), current, from, to))
    modifies a, w, w.heads, w.objects
    ensures w.Valid() && w.objects == old(w.objects) + {a}
    ensures w.View() == Initialized(old(w.View()), a, old(a.Image()), current, from, to)
  {
    AssembledLinks(w.View(), a, a.Image(), current, from, to);
    InitUnlinked(w, a, current, from, to);
    InsertRanked(w, a);
  }

  method ConstructScalar(v: Node, q16: u32)
    modifies v`vtable, v`flags, v`word04, v`rank
    ensures v.Image() == NewScalar(old(v.Image()), q16)
  {
    v.vtable := BASE_VTABLE;
    v.flags := Flags(false, false, 0);
    v.vtable := FIXED_VALUE_VTABLE;
    v.word04 := q16;
    v.rank := 0;
  }

  /** `fixed_value_init`, in fresh storage */
  method FixedValueInit(w: Wheel, v: Node, q16: u32)
    requires w.Valid() && v !in w.objects
    modifies v, w
    ensures w.Valid() && w.objects == old(w.objects) + {v}
    ensures w.View() == Put(old(w.View()), v, NewScalar(old(v.Image()), q16))
  {
    ghost var s := w.View();
    Outside(w, v);
    ConstructScalar(v, q16);
    Undisturbed(w, v, s, Links(w.objects));
    Track(w, v, s, false);
  }

  /** `animation_destroy` up to the base destructor. (The source's first store of the derived vtable is
      overwritten before anything can read it, and is left out.) */
  method ReleaseAndDisown(w: Wheel, a: Node)
    requires w.Valid() && a in w.objects && SlotsOk(w.View().objs, a)
    modifies w.objects, w`drained, w`live
    ensures w.Valid()
    ensures var s := old(w.View());
            var e := Exchange(s, [], Slots(s.objs[a]));
            w.View() == Put(e, a, e.objs[a].(vtable := BASE_VTABLE)).(live := s.live - {a})
  {
    ghost var s := w.View();
    assert s.objs[a] == a.Image();
    ExchangeShifts(s, [], Slots(s.objs[a]), a);
    ReleaseOnly(s, Slots(s.objs[a]));
    ReleasedThree(w, a);
    BaseVtable(w, a);
    Own(w, a, false);
  }

  /** `animation_destroy`: release the slots, then the base destructor's unlink. */
  method AnimationDestroy(w: Wheel, a: Node)
    requires w.Valid() && Enabled(w.View(), Destroy(a))
    modifies w, w.heads, w.objects
    ensures w.Valid() && w.objects == old(w.objects)
    ensures w.View() == Destroyed(old(w.View()), a)
  {
    ReleaseAndDisown(w, a);
    w.Remove(a);
  }

  lemma ReleaseOnly(s: State<Node>, slots: seq<Option<Node>>)
    requires AllTracked(s, slots)
    ensures Exchange(s, [], slots) == ReleaseAll(s, slots)
  {
  }

  method BaseVtable(w: Wheel, a: Node)
    requires w.Valid() && a in w.objects
    modifies a`vtable
    ensures w.Valid()
    ensures var s := old(w.View()); w.View() == Put(s, a, s.objs[a].(vtable := BASE_VTABLE))
  {
    ghost var s, links := w.View(), Links(w.objects);
    ghost var o := a.Image().(vtable := BASE_VTABLE);
    Snapshot(w, a);
    PutKeepsWF(s, a, o, s.live);
    a.vtable := BASE_VTABLE;
    Restored(w, a, s.objs, links, Put(s, a, o));
  }
}
