/** `animation_property_pair_init`: two endpoint values, an animation over them and the owner's current
    value, and the drop of the two temporary references. */
module PropertyPair {
  import opened Words
  import opened WheelModel
  import opened TimingWheel
  import opened AnimationModel
  import opened AnimationRuns
  import opened AnimationEffects
  import opened AnimationDrains
  import opened Animations

  /** The storage images a heap hands out. */
  datatype Raws<T> = Raws(from: Obj<T>, to: Obj<T>, animation: Obj<T>)

  /** The two endpoint values on their own. */
  ghost function Endpoints<T>(s: State<T>, f: T, t: T, raws: Raws<T>, qf: u32, qt: u32): State<T> {
    Put(Put(s, f, NewScalar(raws.from, qf)), t, NewScalar(raws.to, qt))
  }

  ghost predicate PairReady<T>(s: State<T>, f: T, t: T, a: T, c: T) {
    && c in s.objs && f !in s.objs && t !in s.objs && a !in s.objs && f != t && f != a && t != a
    && Insertable(Wrap(s.objs[c].rank + 1))
  }

  lemma PairEnabled<T>(s: State<T>, f: T, t: T, a: T, c: T, raws: Raws<T>, qf: u32, qt: u32)
    requires WF(s) && PairReady(s, f, t, a, c)
    ensures var e := Endpoints(s, f, t, raws, qf, qt);
            && WF(e) && Enabled(e, Init(a, raws.animation, c, f, t))
            && RankOver(e, c, f, t) == Wrap(s.objs[c].rank + 1)
  {
    PutKeepsWF(s, f, NewScalar(raws.from, qf), s.live);
    PutKeepsWF(Put(s, f, NewScalar(raws.from, qf)), t, NewScalar(raws.to, qt), s.live);
  }

  /** The whole sequence. */
  ghost function PairBuilt<T>(s: State<T>, f: T, t: T, a: T, c: T, raws: Raws<T>, qf: u32, qt: u32): State<T>
    requires WF(s) && PairReady(s, f, t, a, c)
  {
    PairEnabled(s, f, t, a, c, raws, qf, qt);
    var i := Initialized(Endpoints(s, f, t, raws, qf, qt), a, raws.animation, c, f, t);
    InitRebinds(Endpoints(s, f, t, raws, qf, qt), a, raws.animation, c, f, t);
    Link(Release(Release(i, f), t), a)
  }

  /** The two releases and the second insert change nothing: a value built by `fixed_value_init` is not
      counted, so there is no temporary reference to give back, and the animation is already linked
      unless its rank wrapped to zero. */
  lemma PairTailChangesNothing<T>(s: State<T>, f: T, t: T, a: T, c: T, raws: Raws<T>, qf: u32, qt: u32)
    requires WF(s) && PairReady(s, f, t, a, c)
    ensures var e := Endpoints(s, f, t, raws, qf, qt);
            && Enabled(e, Init(a, raws.animation, c, f, t))
            && PairBuilt(s, f, t, a, c, raws, qf, qt) == Initialized(e, a, raws.animation, c, f, t)
  {
    var e := Endpoints(s, f, t, raws, qf, qt);
    PairEnabled(s, f, t, a, c, raws, qf, qt);
    InitLinks(e, a, raws.animation, c, f, t);
    Untouched(e, a, raws.animation, c, f, t, f);
    Untouched(e, a, raws.animation, c, f, t, t);
    TailIsIdle(Initialized(e, a, raws.animation, c, f, t), f, t, a);
  }

  lemma TailIsIdle<T>(i: State<T>, f: T, t: T, a: T)
    requires f in i.objs && t in i.objs && a in i.objs && !i.objs[f].flags.counted && !i.objs[t].flags.counted
    requires i.objs[a].flags.linked || Signed(Bucket(i.objs[a].rank)) < 0
    ensures Link(Release(Release(i, f), t), a) == i
  {
    assert Release(i, f) == i by {
      assert i.objs[f := i.objs[f]] == i.objs;
    }
    assert Release(i, t) == i by {
      assert i.objs[t := i.objs[t]] == i.objs;
    }
  }

  /** A fixed value that shows this word and has never been counted. */
  ghost predicate EndpointWords<T>(o: Obj<T>, q16: u32) {
    o.vtable == 0x0898_6998 && o.word04 == q16 && o.rank == 0 && o.flags.Word() == 0
  }

  /** What the sequence leaves: the animation holds (current, from, to), one reference to the current
      value is taken if it counts, and the rank is one past the current value's aux word, the endpoint
      values having aux zero. */
  lemma PairResult<T>(s: State<T>, f: T, t: T, a: T, c: T, raws: Raws<T>, qf: u32, qt: u32)
    requires WF(s) && PairReady(s, f, t, a, c)
    ensures var r := PairBuilt(s, f, t, a, c, raws, qf, qt);
            && WF(r) && r.live == s.live + {a} && r.objs.Keys == s.objs.Keys + {f, t, a}
            && Slots(r.objs[a]) == [Some(c), Some(f), Some(t)] && r.objs[a].rank == Wrap(s.objs[c].rank + 1)
            && r.objs[f] == NewScalar(raws.from, qf) && r.objs[t] == NewScalar(raws.to, qt)
            && CountMoves(s.objs[c].flags, r.objs[c].flags, 1)
  {
    var e := Endpoints(s, f, t, raws, qf, qt);
    PairEnabled(s, f, t, a, c, raws, qf, qt);
    PairTailChangesNothing(s, f, t, a, c, raws, qf, qt);
    InitKeepsWF(e, a, raws.animation, c, f, t);
    InitRebinds(e, a, raws.animation, c, f, t);
    Untouched(e, a, raws.animation, c, f, t, f);
    Untouched(e, a, raws.animation, c, f, t, t);
    InitMoves(e, a, raws.animation, c, f, t, c);
    OnceOf(c, f, t);
  }

  /** The words of the three new objects, and the place of the animation on the wheel. */
  lemma PairWords<T>(s: State<T>, f: T, t: T, a: T, c: T, raws: Raws<T>, qf: u32, qt: u32)
    requires WF(s) && PairReady(s, f, t, a, c)
    ensures var r := PairBuilt(s, f, t, a, c, raws, qf, qt);
            && {f, t, a} <= r.objs.Keys
            && EndpointWords(r.objs[f], qf) && EndpointWords(r.objs[t], qt)
            && r.objs[a].vtable == 0x0898_7f00 && !r.objs[a].flags.counted && r.objs[a].flags.count == 0
            && PlacedByRank(s, r, a)
  {
    var e := Endpoints(s, f, t, raws, qf, qt);
    PairEnabled(s, f, t, a, c, raws, qf, qt);
    PairTailChangesNothing(s, f, t, a, c, raws, qf, qt);
    Untouched(e, a, raws.animation, c, f, t, f);
    Untouched(e, a, raws.animation, c, f, t, t);
    InitEffect(e, a, raws.animation, c, f, t);
  }

  lemma OnceOf<T>(c: T, f: T, t: T)
    requires c != f && c != t
    ensures Occurrences([Some(c), Some(f), Some(t)], Some(c)) == 1
  {
    assert [Some(c), Some(f), Some(t)][1..] == [Some(f), Some(t)] && [Some(f), Some(t)][1..] == [Some(t)];
    assert Occurrences([Some(t)], Some(c)) == 0;
  }

  /** An uncounted object comes through a construction with not a word changed. */
  lemma Untouched<T>(e: State<T>, a: T, raw: Obj<T>, c: T, f: T, t: T, v: T)
    requires Enabled(e, Init(a, raw, c, f, t)) && v in e.objs && v != a && !e.objs[v].flags.counted
    ensures v in Initialized(e, a, raw, c, f, t).objs
    ensures Initialized(e, a, raw, c, f, t).objs[v] == e.objs[v]
  {
    ExchangeShifts(Unlink(Put(e, a, Constructed(raw)), a), [Some(c), Some(f), Some(t)], [None, None, None], v);
  }

  // ---------------------------------------------------------------------------------------------
  // In place
  // ---------------------------------------------------------------------------------------------

  /** The owner's four slots. */
  class PropertyOwner {
    var currentValue: Node
    var fromValue: Node?
    var toValue: Node?
    var animation: Node?

    constructor (currentValue: Node)
      ensures this.currentValue == currentValue
    {
      this.currentValue := currentValue;
      fromValue, toValue, animation := null, null, null;
    }
  }

  method NewEndpoint(w: Wheel, q16: u32) returns (v: Node, ghost raw: Obj<Node>)
    requires w.Valid()
    modifies w
    ensures w.Valid() && fresh(v) && v !in old(w.objects) && w.objects == old(w.objects) + {v}
    ensures w.View() == Put(old(w.View()), v, NewScalar(raw, q16))
  {
    v := OperatorNew();
    raw := v.Image();
    FixedValueInit(w, v, q16);
  }

  /** The two endpoint values, each stored in its slot as soon as it is built. */
  method NewEndpoints(w: Wheel, owner: PropertyOwner, qf: u32, qt: u32)
    returns (f: Node, t: Node, ghost rawFrom: Obj<Node>, ghost rawTo: Obj<Node>)
    requires w.Valid()
    modifies w, owner`fromValue, owner`toValue
    ensures w.Valid() && fresh(f) && fresh(t) && f != t && owner.fromValue == f && owner.toValue == t
    ensures f !in old(w.objects) && t !in old(w.objects) && w.objects == old(w.objects) + {f, t}
    ensures forall o :: o in w.objects ==> o in old(w.objects) || fresh(o)
    ensures w.View() == Put(Put(old(w.View()), f, NewScalar(rawFrom, qf)), t, NewScalar(rawTo, qt))
  {
    f, rawFrom := NewEndpoint(w, qf);
    StoreFrom(w, owner, f);
    t, rawTo := NewEndpoint(w, qt);
    StoreTo(w, owner, t);
  }

  method NewAnimation(w: Wheel, current: Node, from: Node, to: Node) returns (a: Node, ghost raw: Obj<Node>)
    requires w.Valid() && current in w.objects && from in w.objects && to in w.objects
    requires Insertable(RankOver(w.View(), current, from, to))
    modifies w, w.heads, w.objects
    ensures w.Valid() && fresh(a) && a !in old(w.objects) && w.objects == old(w.objects) + {a}
    ensures forall o :: o in w.objects ==> o in old(w.objects) || fresh(o)
    ensures Enabled(old(w.View()), Init(a, raw, current, from, to))
    ensures w.View() == Initialized(old(w.View()), a, raw, current, from, to)
  {
    a := OperatorNew();
    raw := a.Image();
    AnimationInit(w, a, current, from, to);
  }

  method StoreFrom(w: Wheel, owner: PropertyOwner, f: Node)
    requires w.Valid()
    modifies owner`fromValue
    ensures owner.fromValue == f && w.Valid() && w.View() == old(w.View()) && w.objects == old(w.objects)
  {
    owner.fromValue := f;
  }

  method StoreTo(w: Wheel, owner: PropertyOwner, t: Node)
    requires w.Valid()
    modifies owner`toValue
    ensures owner.toValue == t && w.Valid() && w.View() == old(w.View()) && w.objects == old(w.objects)
  {
    owner.toValue := t;
  }

  method StoreAnimation(w: Wheel, owner: PropertyOwner, a: Node)
    requires w.Valid()
    modifies owner`animation
    ensures owner.animation == a && w.Valid() && w.View() == old(w.View()) && w.objects == old(w.objects)
  {
    owner.animation := a;
  }

  /** After the construction the tail has nothing to do. */
  lemma TailReady(w: Wheel, e: State<Node>, a: Node, raw: Obj<Node>, c: Node, f: Node, t: Node)
    requires w.Valid() && a in w.objects && Enabled(e, Init(a, raw, c, f, t))
    requires w.View() == Initialized(e, a, raw, c, f, t)
    requires !e.objs[f].flags.counted && !e.objs[t].flags.counted
    ensures f in w.objects && t in w.objects
    ensures !w.View().objs[f].flags.counted && !w.View().objs[t].flags.counted
    ensures w.View().objs[a].flags.linked || Signed(Bucket(w.View().objs[a].rank)) < 0
  {
    InitLinks(e, a, raw, c, f, t);
    Untouched(e, a, raw, c, f, t, f);
    Untouched(e, a, raw, c, f, t, t);
  }

  lemma InitLinks<T>(e: State<T>, a: T, raw: Obj<T>, c: T, f: T, t: T)
    requires |e.buckets| == BUCKETS && Enabled(e, Init(a, raw, c, f, t))
    ensures var i := Initialized(e, a, raw, c, f, t);
            a in i.objs && f in i.objs && t in i.objs && (i.objs[a].flags.linked || Signed(Bucket(i.objs[a].rank)) < 0)
  {
    InitRebinds(e, a, raw, c, f, t);
  }

  /** A release of a value that is not counted. */
  method ReleasedUncounted(w: Wheel, owner: PropertyOwner, v: Node)
    requires w.Valid() && v in w.objects && !v.flags.counted
    modifies v`flags, w`drained
    ensures w.Valid() && w.View() == old(w.View()) && w.objects == old(w.objects) && unchanged(owner)
  {
    ghost var s := w.View();
    assert s.objs[v] == v.Image();
    assert Release(s, v) == s by {
      assert s.objs[v := s.objs[v]] == s.objs;
    }
    Released(w, v);
  }

  /** An insert of a node that is linked already or has no bucket. */
  method InsertedAlready(w: Wheel, owner: PropertyOwner, a: Node)
    requires w.Valid() && a in w.objects && (a.flags.linked || Signed(Bucket(a.rank)) < 0)
    modifies w, w.heads, w.objects
    ensures w.Valid() && w.View() == old(w.View()) && w.objects == old(w.objects) && unchanged(owner)
  {
    assert w.View().objs[a] == a.Image();
    w.Insert(a);
  }

  /** The two releases and the second insert, where there is nothing left to do. */
  method PairTail(w: Wheel, owner: PropertyOwner, from: Node, to: Node, a: Node)
    requires w.Valid() && from in w.objects && to in w.objects && a in w.objects
    requires !w.View().objs[from].flags.counted && !w.View().objs[to].flags.counted
    requires w.View().objs[a].flags.linked || Signed(Bucket(w.View().objs[a].rank)) < 0
    modifies w, w.heads, w.objects
    ensures w.Valid() && w.View() == old(w.View()) && w.objects == old(w.objects) && unchanged(owner)
  {
    assert w.View().objs[from] == from.Image();
    ReleasedUncounted(w, owner, from);
    assert w.View().objs[to] == to.Image();
    ReleasedUncounted(w, owner, to);
    assert w.View().objs[a] == a.Image();
    InsertedAlready(w, owner, a);
  }

  /** The animation over endpoints that are in place, in its slot, and the tail. */
  method FinishPair(w: Wheel, owner: PropertyOwner, f: Node, t: Node) returns (a: Node, ghost raw: Obj<Node>)
    requires w.Valid() && owner.currentValue in w.objects && f in w.objects && t in w.objects
    requires Insertable(RankOver(w.View(), owner.currentValue, f, t))
    requires !w.View().objs[f].flags.counted && !w.View().objs[t].flags.counted
    modifies w, w.heads, w.objects, owner`animation
    ensures w.Valid() && owner.animation == a && fresh(a) && a !in old(w.objects)
    ensures unchanged(owner`currentValue, owner`fromValue, owner`toValue)
    ensures w.objects == old(w.objects) + {a}
    ensures Enabled(old(w.View()), Init(a, raw, owner.currentValue, f, t))
    ensures w.View() == Initialized(old(w.View()), a, raw, owner.currentValue, f, t)
  {
    ghost var e := w.View();
    a, raw := NewAnimation(w, owner.currentValue, f, t);
    StoreAnimation(w, owner, a);
    TailReady(w, e, a, raw, owner.currentValue, f, t);
    PairTail(w, owner, f, t, a);
  }

  /** `animation_property_pair_init`; `from << 16` drops the high bits. The state reached is that of the
      whole sequence, PairBuilt, by PairTailChangesNothing. */
  method AnimationPropertyPairInit(w: Wheel, owner: PropertyOwner, from: i32, to: i32)
    returns (f: Node, t: Node, a: Node, ghost raws: Raws<Node>)
    requires w.Valid() && owner.currentValue in w.objects && Insertable(Wrap(owner.currentValue.rank + 1))
    modifies w, w.heads, w.objects, owner`fromValue, owner`toValue, owner`animation
    ensures w.Valid() && owner.fromValue == f && owner.toValue == t && owner.animation == a
    ensures fresh(f) && fresh(t) && fresh(a)
    ensures PairReady(old(w.View()), f, t, a, owner.currentValue)
    ensures var e := Endpoints(old(w.View()), f, t, raws, Wrap(from * 0x1_0000), Wrap(to * 0x1_0000));
            && Enabled(e, Init(a, raws.animation, owner.currentValue, f, t))
            && w.View() == Initialized(e, a, raws.animation, owner.currentValue, f, t)
  {
    ghost var s, c := w.View(), owner.currentValue;
    assert s.objs[c] == c.Image();
    assert Insertable(Wrap(s.objs[c].rank + 1)) && s.objs.Keys == w.objects;
    var qf, qt := Wrap(from * 0x1_0000), Wrap(to * 0x1_0000);
    ghost var rawFrom, rawTo, raw;
    f, t, rawFrom, rawTo := NewEndpoints(w, owner, qf, qt);
    assert f !in s.objs && t !in s.objs;
    Ready(s, f, t, c, NewScalar(rawFrom, qf), NewScalar(rawTo, qt));
    a, raw := FinishPair(w, owner, f, t);
    assert a !in s.objs && a != f && a != t;
    raws := Raws(rawFrom, rawTo, raw);
    assert owner.currentValue == c && PairReady(s, f, t, a, c);
  }

  lemma Ready(s: State<Node>, f: Node, t: Node, c: Node, of: Obj<Node>, ot: Obj<Node>)
    requires c in s.objs && f !in s.objs && t !in s.objs && f != t && of.rank == ot.rank == 0
    requires Insertable(Wrap(s.objs[c].rank + 1))
    ensures Insertable(RankOver(Put(Put(s, f, of), t, ot), c, f, t))
  {
  }
}
