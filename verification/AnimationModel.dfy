/** The animation operations on the simple form of WheelModel: what each does to reference counts,
    slots, ranks and buckets, and what holds over every run of them. */
module AnimationModel {
  import opened Words
  import opened WheelModel

  // ---------------------------------------------------------------------------------------------
  // Retaining and releasing
  // ---------------------------------------------------------------------------------------------

  ghost function Retain<T>(s: State<T>, v: T): State<T>
    requires v in s.objs
  {
    s.(objs := s.objs[v := s.objs[v].(flags := s.objs[v].flags.Moved(1))])
  }

  /** A release whose result has no count left dispatches the deleting destructor, logged in `drained`. */
  ghost function Release<T>(s: State<T>, v: T): State<T>
    requires v in s.objs
  {
    var before := s.objs[v].flags;
    var after := before.Moved(-1);
    s.(objs := s.objs[v := s.objs[v].(flags := after)],
       drained := if before.counted && after.count == 0 then s.drained + multiset{v} else s.drained)
  }

  /** The source's NULL-guarded release. */
  ghost function ReleaseSlot<T>(s: State<T>, slot: Option<T>): State<T>
    requires SlotOk(s.objs, slot)
  {
    if slot.Some? then Release(s, slot.value) else s
  }

  ghost predicate AllTracked<T>(s: State<T>, slots: seq<Option<T>>) {
    forall i :: 0 <= i < |slots| ==> SlotOk(s.objs, slots[i])
  }

  ghost function RetainAll<T>(s: State<T>, slots: seq<Option<T>>): (r: State<T>)
    requires AllTracked(s, slots)
    ensures r.objs.Keys == s.objs.Keys && r == s.(objs := r.objs)
    decreases |slots|
  {
    if slots == [] then s
    else RetainAll(if slots[0].Some? then Retain(s, slots[0].value) else s, slots[1..])
  }

  ghost function ReleaseAll<T>(s: State<T>, slots: seq<Option<T>>): (r: State<T>)
    requires AllTracked(s, slots)
    ensures r.objs.Keys == s.objs.Keys && r == s.(objs := r.objs, drained := r.drained)
    decreases |slots|
  {
    if slots == [] then s
    else ReleaseAll(ReleaseSlot(s, slots[0]), slots[1..])
  }

  lemma RetainOne<T>(s: State<T>, x: T)
    requires x in s.objs
    ensures RetainAll(s, [Some(x)]) == Retain(s, x)
  {
    assert [Some(x)][1..] == [];
  }

  lemma RetainTwo<T>(s: State<T>, x: T, y: T)
    requires x in s.objs && y in s.objs
    ensures RetainAll(s, [Some(x), Some(y)]) == Retain(Retain(s, x), y)
  {
    assert [Some(x), Some(y)][1..] == [Some(y)];
    RetainOne(Retain(s, x), y);
  }

  lemma RetainThree<T>(s: State<T>, x: T, y: T, z: T)
    requires x in s.objs && y in s.objs && z in s.objs
    ensures RetainAll(s, [Some(x), Some(y), Some(z)]) == Retain(Retain(Retain(s, x), y), z)
  {
    assert [Some(x), Some(y), Some(z)][1..] == [Some(y), Some(z)];
    RetainTwo(Retain(s, x), y, z);
  }

  lemma ReleaseOne<T>(s: State<T>, x: Option<T>)
    requires SlotOk(s.objs, x)
    ensures ReleaseAll(s, [x]) == ReleaseSlot(s, x)
  {
    assert [x][1..] == [];
  }

  lemma ReleaseTwo<T>(s: State<T>, x: Option<T>, y: Option<T>)
    requires SlotOk(s.objs, x) && SlotOk(s.objs, y)
    ensures ReleaseAll(s, [x, y]) == ReleaseSlot(ReleaseSlot(s, x), y)
  {
    assert [x, y][1..] == [y];
    ReleaseOne(ReleaseSlot(s, x), y);
  }

  lemma ReleaseThree<T>(s: State<T>, x: Option<T>, y: Option<T>, z: Option<T>)
    requires SlotOk(s.objs, x) && SlotOk(s.objs, y) && SlotOk(s.objs, z)
    ensures ReleaseAll(s, [x, y, z]) == ReleaseSlot(ReleaseSlot(ReleaseSlot(s, x), y), z)
  {
    assert [x, y, z][1..] == [y, z];
    ReleaseTwo(ReleaseSlot(s, x), y, z);
  }

  /** Every new value is retained before any old one is released. */
  ghost function Exchange<T>(s: State<T>, news: seq<Option<T>>, olds: seq<Option<T>>): (r: State<T>)
    requires AllTracked(s, news) && AllTracked(s, olds)
    ensures r.objs.Keys == s.objs.Keys && r == s.(objs := r.objs, drained := r.drained)
  {
    ReleaseAll(RetainAll(s, news), olds)
  }

  ghost function Occurrences<X>(xs: seq<X>, x: X): (n: int)
    ensures n >= 0
  {
    if xs == [] then 0 else (if xs[0] == x then 1 else 0) + Occurrences(xs[1..], x)
  }

  /** The count field moves by `d`, modulo its width, if bit 1 is set, and stays put if not. */
  ghost predicate Moves(before: Flags, after: Flags, d: int) {
    after == before.(count := before.Moved(d).count)
  }

  /** `after` is `before` with its count moved by `d`. */
  ghost predicate Shifted<T>(before: Obj<T>, after: Obj<T>, d: int) {
    after == before.(flags := after.flags) && Moves(before.flags, after.flags, d)
  }

  lemma ShiftedTwice<T>(a: Obj<T>, b: Obj<T>, c: Obj<T>, d: int, e: int, f: int)
    requires Shifted(a, b, d) && Shifted(b, c, e) && f == d + e
    ensures Shifted(a, c, f)
  {
    if a.flags.counted {
      var x := a.flags.count + d;
      assert x == TWO_30 * (x / TWO_30) + x % TWO_30;
      assert (x % TWO_30 + e) % TWO_30 == (x + e) % TWO_30;
    }
  }

  lemma ShiftedInRange<T>(before: Obj<T>, after: Obj<T>, d: int)
    requires Shifted(before, after, d) && before.flags.counted && 0 <= before.flags.count + d < TWO_30
    ensures after.flags.count == before.flags.count + d
  {
  }

  lemma {:induction false} RetainAllShifts<T>(s: State<T>, slots: seq<Option<T>>, v: T)
    requires AllTracked(s, slots) && v in s.objs
    decreases |slots|
    ensures Shifted(s.objs[v], RetainAll(s, slots).objs[v], Occurrences(slots, Some(v)))
  {
    if slots != [] {
      var s' := if slots[0].Some? then Retain(s, slots[0].value) else s;
      RetainAllShifts(s', slots[1..], v);
      if slots[0] == Some(v) {
        ShiftedTwice(s.objs[v], s'.objs[v], RetainAll(s, slots).objs[v], 1, Occurrences(slots[1..], Some(v)),
                     Occurrences(slots, Some(v)));
      }
    }
  }

  lemma {:induction false} ReleaseAllShifts<T>(s: State<T>, slots: seq<Option<T>>, v: T)
    requires AllTracked(s, slots) && v in s.objs
    decreases |slots|
    ensures Shifted(s.objs[v], ReleaseAll(s, slots).objs[v], -Occurrences(slots, Some(v)))
  {
    if slots != [] {
      var s' := ReleaseSlot(s, slots[0]);
      ReleaseAllShifts(s', slots[1..], v);
      if slots[0] == Some(v) {
        ShiftedTwice(s.objs[v], s'.objs[v], ReleaseAll(s, slots).objs[v], -1, -Occurrences(slots[1..], Some(v)),
                     -Occurrences(slots, Some(v)));
      }
    }
  }

  lemma ReleaseAllShiftsOn<T>(before: Obj<T>, s: State<T>, olds: seq<Option<T>>, v: T, d: int)
    requires AllTracked(s, olds) && v in s.objs && Shifted(before, s.objs[v], d)
    ensures Shifted(before, ReleaseAll(s, olds).objs[v], d - Occurrences(olds, Some(v)))
  {
    ReleaseAllShifts(s, olds, v);
    ShiftedTwice(before, s.objs[v], ReleaseAll(s, olds).objs[v], d, -Occurrences(olds, Some(v)),
                 d - Occurrences(olds, Some(v)));
  }

  lemma ExchangeShifts<T>(s: State<T>, news: seq<Option<T>>, olds: seq<Option<T>>, v: T)
    requires AllTracked(s, news) && AllTracked(s, olds) && v in s.objs
    ensures Shifted(s.objs[v], Exchange(s, news, olds).objs[v],
                    Occurrences(news, Some(v)) - Occurrences(olds, Some(v)))
  {
    RetainAllShifts(s, news, v);
    ReleaseAllShiftsOn(s.objs[v], RetainAll(s, news), olds, v, Occurrences(news, Some(v)));
  }

  /** What a sequence of releases drains: an object with at least as many references as releases is
      drained, once, exactly when the last of its references is among them. */
  lemma {:induction false} ReleaseAllDrains<T>(s: State<T>, slots: seq<Option<T>>, v: T)
    requires AllTracked(s, slots) && v in s.objs && s.objs[v].flags.counted
    requires Occurrences(slots, Some(v)) <= s.objs[v].flags.count
    ensures ReleaseAll(s, slots).drained[v] ==
            s.drained[v] + if 0 < Occurrences(slots, Some(v)) == s.objs[v].flags.count then 1 else 0
    decreases |slots|
  {
    if slots != [] {
      var s' := ReleaseSlot(s, slots[0]);
      if slots[0] == Some(v) {
        assert s'.objs[v].flags.count == s.objs[v].flags.count - 1;
      } else {
        assert s'.objs[v] == s.objs[v];
      }
      ReleaseAllDrains(s', slots[1..], v);
    }
  }

  /** An exchange never drains what it binds: with the old slots' references counted, and room to
      count the new ones, an object is drained exactly when it is not bound again and every
      reference it had was in the old slots. */
  lemma ExchangeDrains<T>(s: State<T>, news: seq<Option<T>>, olds: seq<Option<T>>, v: T)
    requires AllTracked(s, news) && AllTracked(s, olds) && v in s.objs && s.objs[v].flags.counted
    requires Occurrences(olds, Some(v)) <= s.objs[v].flags.count
    requires s.objs[v].flags.count + Occurrences(news, Some(v)) < TWO_30
    ensures Exchange(s, news, olds).drained[v] == s.drained[v] +
              if Occurrences(news, Some(v)) == 0 < Occurrences(olds, Some(v)) == s.objs[v].flags.count then 1 else 0
  {
    RetainAllShifts(s, news, v);
    ShiftedInRange(s.objs[v], RetainAll(s, news).objs[v], Occurrences(news, Some(v)));
    ReleaseAllDrains(RetainAll(s, news), olds, v);
  }

  lemma ExchangeCounts<T>(s: State<T>, news: seq<Option<T>>, olds: seq<Option<T>>, v: T)
    requires AllTracked(s, news) && AllTracked(s, olds) && v in s.objs && s.objs[v].flags.counted
    requires Occurrences(olds, Some(v)) <= s.objs[v].flags.count
    requires s.objs[v].flags.count + Occurrences(news, Some(v)) < TWO_30
    ensures Exchange(s, news, olds).objs[v].flags.count ==
            s.objs[v].flags.count + Occurrences(news, Some(v)) - Occurrences(olds, Some(v))
  {
    ExchangeShifts(s, news, olds, v);
  }

  // ---------------------------------------------------------------------------------------------
  // Operations
  // ---------------------------------------------------------------------------------------------

  /** The source's branches over the three aux words, duplicate comparison included. */
  function Highest(fromAux: u32, toAux: u32, currentAux: u32): (highest: u32)
    ensures highest >= fromAux && highest >= toAux && highest >= currentAux
    ensures highest == fromAux || highest == toAux || highest == currentAux
  {
    if fromAux <= toAux then
      if toAux <= currentAux then currentAux
      else if fromAux <= toAux then toAux
      else fromAux
    else if fromAux <= currentAux then currentAux
    else fromAux
  }

  ghost function RankOver<T>(s: State<T>, current: T, from: T, to: T): u32
    requires current in s.objs && from in s.objs && to in s.objs
  {
    Wrap(Highest(s.objs[from].rank, s.objs[to].rank, s.objs[current].rank) + 1)
  }

  ghost function RankRaised<T>(s: State<T>, a: T, value: T): u32
    requires a in s.objs && value in s.objs
  {
    Max(s.objs[a].rank, Wrap(s.objs[value].rank + 1))
  }

  /** The slots in the order the source releases them. */
  ghost function Slots<T>(o: Obj<T>): seq<Option<T>> {
    [o.current, o.from, o.to]
  }

  /** The object constructed over the storage image `raw`. */
  ghost function Constructed<T>(raw: Obj<T>): Obj<T> {
    raw.(vtable := ANIMATION_VTABLE, flags := Flags(false, false, 0), from := None, to := None, current := None)
  }

  /** `fixed_value_init` over the storage image `raw`: not counted, aux zero. */
  ghost function NewScalar<T>(raw: Obj<T>, q16: u32): Obj<T> {
    raw.(vtable := FIXED_VALUE_VTABLE, word04 := q16, rank := 0, flags := Flags(false, false, 0))
  }

  ghost function Put<T>(s: State<T>, n: T, o: Obj<T>): State<T> {
    s.(objs := s.objs[n := o])
  }

  /** A live animation and the tracked objects in its slots. */
  ghost predicate Owner<T>(s: State<T>, a: T) {
    a in s.live && a in s.objs && SlotsOk(s.objs, a)
  }

  datatype Op<T> =
    | Insert(node: T)
    | Remove(node: T)
    | NewValue(value: T, raw: Obj<T>, q16: u32)
    | Adopt(value: T, image: Obj<T>)
    | RetainOutside(value: T)
    | ReleaseOutside(value: T)
    | Init(this_: T, raw: Obj<T>, current: T, from: T, to: T)
    | DefaultInit(this_: T, raw: Obj<T>)
    | SetValues(this_: T, current: T, from: T, to: T)
    | SetCurrent(this_: T, value: T)
    | Destroy(this_: T)

  /** The objects an operation names: live ones where the source reads them, fresh storage for a
      constructor. `Adopt` brings in an object built elsewhere, counted or not, and the two outside
      operations are `retain_value` and `release_refcounted_value` called by other owners. */
  ghost predicate Addressed<T>(s: State<T>, op: Op<T>) {
    match op
    case Insert(n) => n in s.objs
    case Remove(n) => n in s.objs
    case NewValue(v, raw, q16) => v !in s.objs
    case Adopt(v, image) => v !in s.objs && !image.flags.linked
    case RetainOutside(v) => v in s.objs
    case ReleaseOutside(v) => v in s.objs
    case Init(a, raw, c, f, t) => a !in s.objs && c in s.objs && f in s.objs && t in s.objs
    case DefaultInit(a, raw) => a !in s.objs
    case SetValues(a, c, f, t) => Owner(s, a) && c in s.objs && f in s.objs && t in s.objs
    case SetCurrent(a, v) => Owner(s, a) && v in s.objs
    case Destroy(a) => Owner(s, a)
  }

  /** Whenever a node is about to be linked, its bucket exists: the source does not check. */
  ghost predicate Placeable<T>(s: State<T>, op: Op<T>)
    requires Addressed(s, op)
  {
    match op
    case Insert(n) => s.objs[n].flags.linked || Insertable(s.objs[n].rank)
    case Init(a, raw, c, f, t) => Insertable(RankOver(s, c, f, t))
    case SetValues(a, c, f, t) => Insertable(RankOver(s, c, f, t))
    case SetCurrent(a, v) => Insertable(RankRaised(s, a, v))
    case _ => true
  }

  ghost predicate Enabled<T>(s: State<T>, op: Op<T>) {
    Addressed(s, op) && Placeable(s, op)
  }

  /** Exchange references, then rewrite the slots and the rank. */
  ghost function Reassign<T>(s: State<T>, a: T, news: seq<Option<T>>, olds: seq<Option<T>>,
                             from: Option<T>, to: Option<T>, current: Option<T>, rank: u32): State<T>
    requires a in s.objs && AllTracked(s, news) && AllTracked(s, olds)
  {
    var e := Exchange(s, news, olds);
    Put(e, a, e.objs[a].(from := from, to := to, current := current, rank := rank))
  }

  /** The same on a node taken off the wheel first. */
  ghost function Rebound<T>(s: State<T>, a: T, news: seq<Option<T>>, olds: seq<Option<T>>,
                            from: Option<T>, to: Option<T>, current: Option<T>, rank: u32): State<T>
    requires a in s.objs && AllTracked(s, news) && AllTracked(s, olds)
  {
    Reassign(Unlink(s, a), a, news, olds, from, to, current, rank)
  }

  /** `animation_init` up to the insert, its defensive remove and its releases of empty slots having
      nothing to do. */
  ghost function Assembled<T>(s: State<T>, a: T, raw: Obj<T>, c: T, f: T, t: T): State<T>
    requires a !in s.objs && c in s.objs && f in s.objs && t in s.objs
  {
    var s1 := Put(s, a, Constructed(raw));
    var b := Reassign(s1, a, [Some(c), Some(f), Some(t)], [None, None, None],
                      Some(f), Some(t), Some(c), RankOver(s, c, f, t));
    b.(live := b.live + {a})
  }

  /** `animation_init` */
  ghost function Initialized<T>(s: State<T>, a: T, raw: Obj<T>, c: T, f: T, t: T): State<T>
    requires Enabled(s, Init(a, raw, c, f, t))
  {
    var b := Rebound(Put(s, a, Constructed(raw)), a, [Some(c), Some(f), Some(t)], [None, None, None],
                     Some(f), Some(t), Some(c), RankOver(s, c, f, t));
    Link(b.(live := b.live + {a}), a)
  }

  /** `animation_default_init` */
  ghost function DefaultInitialized<T>(s: State<T>, a: T, raw: Obj<T>): State<T> {
    Put(s, a, Constructed(raw)).(live := s.live + {a})
  }

  /** `animation_set_values` */
  ghost function ValuesSet<T>(s: State<T>, a: T, c: T, f: T, t: T): State<T>
    requires Enabled(s, SetValues(a, c, f, t))
  {
    Link(Rebound(s, a, [Some(c), Some(f), Some(t)], Slots(s.objs[a]),
                 Some(f), Some(t), Some(c), RankOver(s, c, f, t)), a)
  }

  /** `animation_set_current_value` */
  ghost function CurrentSet<T>(s: State<T>, a: T, v: T): State<T>
    requires Enabled(s, SetCurrent(a, v))
  {
    var o := s.objs[a];
    Link(Rebound(s, a, [Some(v)], [o.current], o.from, o.to, Some(v), RankRaised(s, a, v)), a)
  }

  /** `animation_destroy`: the slots are released but keep their words, and are no longer owned. */
  ghost function Destroyed<T>(s: State<T>, a: T): State<T>
    requires Enabled(s, Destroy(a))
  {
    var e := Exchange(s, [], Slots(s.objs[a]));
    Unlink(Put(e, a, e.objs[a].(vtable := BASE_VTABLE)).(live := s.live - {a}), a)
  }

  ghost function Step<T>(s: State<T>, op: Op<T>): State<T>
    requires Enabled(s, op)
  {
    match op
    case Insert(n) => Link(s, n)
    case Remove(n) => Unlink(s, n)
    case NewValue(v, raw, q16) => Put(s, v, NewScalar(raw, q16))
    case Adopt(v, image) => Put(s, v, image)
    case RetainOutside(v) => Retain(s, v)
    case ReleaseOutside(v) => Release(s, v)
    case Init(a, raw, c, f, t) => Initialized(s, a, raw, c, f, t)
    case DefaultInit(a, raw) => DefaultInitialized(s, a, raw)
    case SetValues(a, c, f, t) => ValuesSet(s, a, c, f, t)
    case SetCurrent(a, v) => CurrentSet(s, a, v)
    case Destroy(a) => Destroyed(s, a)
  }

  // ---------------------------------------------------------------------------------------------
  // Well-formedness is kept
  // ---------------------------------------------------------------------------------------------

  /** `objs'` differs from `objs` in count fields only. */
  ghost predicate CountsOnly<T>(objs: map<T, Obj<T>>, objs': map<T, Obj<T>>) {
    && objs'.Keys == objs.Keys
    && (forall v :: v in objs ==> objs'[v] == objs[v].(flags := objs[v].flags.(count := objs'[v].flags.count)))
  }

  lemma ExchangeCountsOnly<T>(s: State<T>, news: seq<Option<T>>, olds: seq<Option<T>>)
    requires AllTracked(s, news) && AllTracked(s, olds)
    ensures CountsOnly(s.objs, Exchange(s, news, olds).objs)
  {
    forall v | v in s.objs
      ensures var o := Exchange(s, news, olds).objs[v];
              o == s.objs[v].(flags := s.objs[v].flags.(count := o.flags.count))
    {
      ExchangeShifts(s, news, olds, v);
    }
  }

  lemma CountsOnlyKeepsWF<T>(s: State<T>, objs': map<T, Obj<T>>, drained': multiset<T>)
    requires WF(s) && CountsOnly(s.objs, objs')
    ensures WF(s.(objs := objs', drained := drained'))
  {
  }

  lemma RetainKeepsWF<T>(s: State<T>, v: T)
    requires WF(s) && v in s.objs
    ensures WF(Retain(s, v)) && WF(Release(s, v))
  {
    CountsOnlyKeepsWF(s, Retain(s, v).objs, s.drained);
    CountsOnlyKeepsWF(s, Release(s, v).objs, Release(s, v).drained);
  }

  /** An unlinked object may have anything but its flags rewritten, and may become live. */
  lemma PutKeepsWF<T>(s: State<T>, a: T, o: Obj<T>, live': set<T>)
    requires WF(s) && live' <= s.live + {a}
    requires a in s.objs ==> o.flags == s.objs[a].flags && (o.flags.linked ==> o.rank == s.objs[a].rank)
    requires a !in s.objs ==> !o.flags.linked
    requires a in live' ==> SlotsOk(s.objs[a := o], a)
    ensures WF(s.(objs := s.objs[a := o], live := live'))
  {
  }

  lemma ReboundKeepsWF<T>(s: State<T>, a: T, news: seq<Option<T>>, olds: seq<Option<T>>,
                          from: Option<T>, to: Option<T>, current: Option<T>, rank: u32)
    requires WF(s) && a in s.objs && AllTracked(s, news) && AllTracked(s, olds)
    requires SlotOk(s.objs, from) && SlotOk(s.objs, to) && SlotOk(s.objs, current)
    ensures WF(Rebound(s, a, news, olds, from, to, current, rank))
  {
    var u := Unlink(s, a);
    UnlinkKeepsWF(s, a);
    var e := Exchange(u, news, olds);
    ExchangeCountsOnly(u, news, olds);
    CountsOnlyKeepsWF(u, e.objs, e.drained);
    PutKeepsWF(e, a, e.objs[a].(from := from, to := to, current := current, rank := rank), e.live);
  }
}
