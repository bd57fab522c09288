/** Reference counts against the slots and against draining: every slot is backed, what is bound survives
    the releases, and nothing is drained twice or while it is held. */
module AnimationDrains {
  import opened Words
  import opened WheelModel
  import opened AnimationModel
  import opened AnimationRuns

  // ---------------------------------------------------------------------------------------------
  // Every slot is backed by a reference
  // ---------------------------------------------------------------------------------------------

  /** Every slot of a live animation owns one of the references it holds. */
  ghost predicate Sound<T>(s: State<T>) {
    && s.live <= s.objs.Keys
    && (forall v :: v in s.objs ==> Backed(s, v))
  }

  /** No counted object's count is about to wrap. */
  ghost predicate Roomy<T>(s: State<T>) {
    forall v :: v in s.objs && s.objs[v].flags.counted ==> s.objs[v].flags.count + 3 < TWO_30
  }

  ghost predicate RoomyRun<T>(s: State<T>, ops: seq<Op<T>>)
    requires AllEnabled(s, ops)
    decreases |ops|
  {
    Roomy(s) && (ops != [] ==> RoomyRun(Step(s, ops[0]), ops[1..]))
  }

  /** Another owner gives back only a reference that no slot owns. */
  ghost predicate Entitled<T>(s: State<T>, op: Op<T>)
    requires s.live <= s.objs.Keys && Enabled(s, op)
  {
    op.ReleaseOutside? ==>
      s.objs[op.value].flags.counted ==> Owned(s.objs, s.live, op.value) < s.objs[op.value].flags.count
  }

  ghost predicate EntitledRun<T>(s: State<T>, ops: seq<Op<T>>)
    requires AllEnabled(s, ops)
    decreases |ops|
  {
    ops != [] ==> s.live <= s.objs.Keys && Entitled(s, ops[0]) && EntitledRun(Step(s, ops[0]), ops[1..])
  }

  /** A rebind or a destroy brings in no object. */
  lemma RebindsTracked<T>(s: State<T>, op: Op<T>)
    requires Enabled(s, op) && (op.SetValues? || op.SetCurrent? || op.Destroy?)
    ensures Step(s, op).objs.Keys == s.objs.Keys
  {
    match op
    case SetValues(a, c, f, t) => SetValuesRebinds(s, a, c, f, t);
    case SetCurrent(a, w) => SetCurrentRebinds(s, a, w);
    case Destroy(a) => DestroyRebinds(s, a);
  }

  lemma InitUncounted<T>(s: State<T>, a: T, raw: Obj<T>, c: T, f: T, t: T)
    requires Enabled(s, Init(a, raw, c, f, t))
    ensures Initialized(s, a, raw, c, f, t).objs.Keys == s.objs.Keys + {a}
    ensures !Initialized(s, a, raw, c, f, t).objs[a].flags.counted
  {
    InitRebinds(s, a, raw, c, f, t);
    ExchangeCountsOnly(Unlink(Put(s, a, Constructed(raw)), a), [Some(c), Some(f), Some(t)], [None, None, None]);
  }

  /** Constructors make uncounted objects. */
  lemma NewObjectsUncounted<T>(s: State<T>, op: Op<T>, v: T)
    requires Enabled(s, op) && v !in s.objs && v in Step(s, op).objs && !op.Adopt?
    ensures !Step(s, op).objs[v].flags.counted
  {
    if op.SetValues? || op.SetCurrent? || op.Destroy? {
      RebindsTracked(s, op);
    } else if op.Init? {
      InitUncounted(s, op.this_, op.raw, op.current, op.from, op.to);
    }
  }

  /** Slots hold tracked objects only. */
  lemma {:induction false} StrangersUnowned<T>(objs: map<T, Obj<T>>, live: set<T>, v: T)
    requires live <= objs.Keys && forall a :: a in live ==> Some(v) !in Slots(objs[a])
    ensures Owned(objs, live, v) == 0
    decreases |live|
  {
    if live != {} {
      var a :| a in live;
      OwnedPick(objs, live, v, a);
      AbsentOccurrences(Slots(objs[a]), Some(v));
      StrangersUnowned(objs, live - {a}, v);
    }
  }

  lemma {:induction false} AbsentOccurrences<X>(xs: seq<X>, x: X)
    requires x !in xs
    ensures Occurrences(xs, x) == 0
  {
    if xs != [] {
      AbsentOccurrences(xs[1..], x);
    }
  }

  lemma AdoptedUnowned<T>(s: State<T>, v: T, image: Obj<T>)
    requires WF(s) && v !in s.objs
    ensures Owned(Put(s, v, image).objs, s.live, v) == 0
  {
    var s' := Put(s, v, image);
    forall a | a in s.live
      ensures Some(v) !in Slots(s'.objs[a])
    {
      assert SlotsOk(s.objs, a);
    }
    StrangersUnowned(s'.objs, s.live, v);
  }

  ghost predicate Backed<T>(s: State<T>, v: T)
    requires s.live <= s.objs.Keys && v in s.objs
  {
    s.objs[v].flags.counted ==> Owned(s.objs, s.live, v) <= s.objs[v].flags.count
  }

  lemma TogetherKeepsBacked<T>(s: State<T>, s': State<T>, v: T, d: int, e: int)
    requires s.live <= s.objs.Keys && v in s.objs && Together(s, s', v, d, e)
    requires Backed(s, v) && d + e <= 3 && (s.objs[v].flags.counted ==> s.objs[v].flags.count + 3 < TWO_30)
    requires e >= 0 || (e == -1 && (s.objs[v].flags.counted ==> Owned(s.objs, s.live, v) < s.objs[v].flags.count))
    ensures Backed(s', v)
  {
  }

  lemma StepKeepsBacked<T>(s: State<T>, op: Op<T>, v: T)
    requires WF(s) && Enabled(s, op) && Sound(s) && Roomy(s) && Entitled(s, op) && v in Step(s, op).objs
    ensures Step(s, op).live <= Step(s, op).objs.Keys && Backed(Step(s, op), v)
  {
    StepKeepsWF(s, op);
    if v in s.objs {
      StepTogether(s, op, v);
      var d :| d + Outside(op, v) <= 3 && Together(s, Step(s, op), v, d, Outside(op, v));
      TogetherKeepsBacked(s, Step(s, op), v, d, Outside(op, v));
    } else if op.Adopt? {
      AdoptedUnowned(s, v, op.image);
    } else {
      NewObjectsUncounted(s, op, v);
    }
  }

  lemma StepKeepsSound<T>(s: State<T>, op: Op<T>)
    requires WF(s) && Enabled(s, op) && Sound(s) && Roomy(s) && Entitled(s, op)
    ensures Sound(Step(s, op))
  {
    StepKeepsWF(s, op);
    var s' := Step(s, op);
    forall v | v in s'.objs
      ensures Backed(s', v)
    {
      StepKeepsBacked(s, op, v);
    }
  }

  /** Over every run in which no count field wraps and other owners give back what is theirs, every slot
      stays backed by a reference: no operation leaves a counted object with fewer references than live
      slots that hold it. */
  lemma {:induction false} RunStaysSound<T>(s: State<T>, ops: seq<Op<T>>)
    requires WF(s) && Sound(s) && AllEnabled(s, ops) && RoomyRun(s, ops) && EntitledRun(s, ops)
    ensures Sound(Run(s, ops))
    decreases |ops|
  {
    if ops != [] {
      StepKeepsWF(s, ops[0]);
      StepKeepsSound(s, ops[0]);
      RunStaysSound(Step(s, ops[0]), ops[1..]);
    }
  }

  // ---------------------------------------------------------------------------------------------
  // Retain before release
  // ---------------------------------------------------------------------------------------------

  lemma OwnedCoversSlots<T>(s: State<T>, a: T, v: T)
    requires s.live <= s.objs.Keys && a in s.live
    ensures Occurrences(Slots(s.objs[a]), Some(v)) <= Owned(s.objs, s.live, v)
  {
    OwnedPick(s.objs, s.live, v, a);
  }

  ghost predicate Settled<T>(s: State<T>, v: T) {
    Sound(s) && v in s.objs && s.objs[v].flags.counted && s.objs[v].flags.count + 3 < TWO_30
  }

  /** `r` counts and drains `v` as an exchange on `u` does, which counts and has drained what `s` has. */
  ghost predicate Exchanges<T>(s: State<T>, u: State<T>, r: State<T>, v: T,
                               news: seq<Option<T>>, olds: seq<Option<T>>)
    requires v in s.objs
  {
    && u.drained == s.drained && v in u.objs && AllTracked(u, news) && AllTracked(u, olds)
    && u.objs[v].flags.counted == s.objs[v].flags.counted && u.objs[v].flags.count == s.objs[v].flags.count
    && v in r.objs && r.drained == Exchange(u, news, olds).drained
    && r.objs[v].flags.count == Exchange(u, news, olds).objs[v].flags.count
  }

  ghost predicate DrainsBy<T>(s: State<T>, r: State<T>, v: T, bound: int, back: int)
    requires v in s.objs
  {
    && v in r.objs
    && r.objs[v].flags.count == s.objs[v].flags.count + bound - back
    && r.drained[v] == s.drained[v] + (if bound == 0 < back == s.objs[v].flags.count then 1 else 0)
  }

  lemma ExchangesDrain<T>(s: State<T>, u: State<T>, r: State<T>, v: T, news: seq<Option<T>>, olds: seq<Option<T>>)
    requires v in s.objs && s.objs[v].flags.counted && Exchanges(s, u, r, v, news, olds)
    requires Occurrences(olds, Some(v)) <= s.objs[v].flags.count
    requires s.objs[v].flags.count + Occurrences(news, Some(v)) < TWO_30
    ensures DrainsBy(s, r, v, Occurrences(news, Some(v)), Occurrences(olds, Some(v)))
  {
    ExchangeDrains(u, news, olds, v);
    ExchangeCounts(u, news, olds, v);
  }

  /** A rebind drains and counts as its exchange does. */
  lemma SetValuesExchanges<T>(s: State<T>, a: T, c: T, f: T, t: T, v: T)
    requires Enabled(s, SetValues(a, c, f, t)) && v in s.objs
    ensures Exchanges(s, Unlink(s, a), ValuesSet(s, a, c, f, t), v, [Some(c), Some(f), Some(t)], Slots(s.objs[a]))
  {
  }

  lemma SetCurrentExchanges<T>(s: State<T>, a: T, w: T, v: T)
    requires Enabled(s, SetCurrent(a, w)) && v in s.objs
    ensures Exchanges(s, Unlink(s, a), CurrentSet(s, a, w), v, [Some(w)], [s.objs[a].current])
  {
  }

  /** `set_values` drains an object exactly when it is not bound again and the animation's own slots
      held every reference it had; what it binds keeps a reference, whatever the aliasing. */
  lemma SetValuesDrains<T>(s: State<T>, a: T, c: T, f: T, t: T, v: T)
    requires Enabled(s, SetValues(a, c, f, t)) && Settled(s, v)
    ensures var r := ValuesSet(s, a, c, f, t);
            && r.drained[v] == s.drained[v] +
                 (if v != c && v != f && v != t && 0 < Occurrences(Slots(s.objs[a]), Some(v)) == s.objs[v].flags.count
                  then 1 else 0)
            && (v == c || v == f || v == t ==> r.objs[v].flags.count > 0)
  {
    SetValuesExchanges(s, a, c, f, t, v);
    OwnedCoversSlots(s, a, v);
    Threes(Some(c), Some(f), Some(t), Some(v));
    BoundOccur(c, f, t, v);
    ExchangesDrain(s, Unlink(s, a), ValuesSet(s, a, c, f, t), v, [Some(c), Some(f), Some(t)], Slots(s.objs[a]));
  }

  lemma BoundOccur<T>(c: T, f: T, t: T, v: T)
    ensures Occurrences([Some(c), Some(f), Some(t)], Some(v)) == 0 <==> v != c && v != f && v != t
  {
    assert [Some(c), Some(f), Some(t)][1..] == [Some(f), Some(t)] && [Some(f), Some(t)][1..] == [Some(t)];
    assert Occurrences([Some(t)], Some(v)) == if t == v then 1 else 0;
  }

  /** `set_current_value` likewise: rebinding an animation to the value it alone holds is safe. */
  lemma SetCurrentDrains<T>(s: State<T>, a: T, w: T, v: T)
    requires Enabled(s, SetCurrent(a, w)) && Settled(s, v)
    ensures var r := CurrentSet(s, a, w);
            && r.drained[v] == s.drained[v] +
                 (if v != w && s.objs[a].current == Some(v) && s.objs[v].flags.count == 1 then 1 else 0)
            && (v == w ==> r.objs[v].flags.count > 0)
  {
    SetCurrentExchanges(s, a, w, v);
    OwnedCoversSlots(s, a, v);
    assert Occurrences([s.objs[a].current], Some(v)) <= Occurrences(Slots(s.objs[a]), Some(v));
    ExchangesDrain(s, Unlink(s, a), CurrentSet(s, a, w), v, [Some(w)], [s.objs[a].current]);
  }

  /** `destroy` gives back one reference per nonzero slot, and drains exactly the objects that had no
      other. */
  lemma DestroyDrains<T>(s: State<T>, a: T, v: T)
    requires Enabled(s, Destroy(a)) && Settled(s, v)
    ensures var r, held := Destroyed(s, a), Occurrences(Slots(s.objs[a]), Some(v));
            && r.objs[v].flags.count == s.objs[v].flags.count - held
            && r.drained[v] == s.drained[v] + (if 0 < held == s.objs[v].flags.count then 1 else 0)
  {
    OwnedCoversSlots(s, a, v);
    NoOccurrences(v);
    ExchangeDrains(s, [], Slots(s.objs[a]), v);
    ExchangeCounts(s, [], Slots(s.objs[a]), v);
  }

  /** After all the retains, an object that is being bound keeps a reference through every one of the
      releases, not only at the end. */
  lemma BoundThroughout<T>(s: State<T>, news: seq<Option<T>>, olds: seq<Option<T>>, k: nat, v: T)
    requires AllTracked(s, news) && AllTracked(s, olds) && k <= |olds|
    requires v in s.objs && s.objs[v].flags.counted && Occurrences(news, Some(v)) > 0
    requires Occurrences(olds, Some(v)) <= s.objs[v].flags.count
    requires s.objs[v].flags.count + Occurrences(news, Some(v)) < TWO_30
    ensures ReleaseAll(RetainAll(s, news), olds[..k]).objs[v].flags.count > 0
    ensures ReleaseAll(RetainAll(s, news), olds[..k]).drained[v] == s.drained[v]
  {
    PrefixOccurrences(olds, k, Some(v));
    ExchangeCounts(s, news, olds[..k], v);
    ExchangeDrains(s, news, olds[..k], v);
  }

  lemma {:induction false} PrefixOccurrences<X>(xs: seq<X>, k: nat, x: X)
    requires k <= |xs|
    ensures Occurrences(xs[..k], x) <= Occurrences(xs, x)
  {
    if k > 0 {
      assert xs[..k][1..] == xs[1..][..k - 1];
      PrefixOccurrences(xs[1..], k - 1, x);
    }
  }

  // ---------------------------------------------------------------------------------------------
  // Uncounted objects
  // ---------------------------------------------------------------------------------------------

  lemma {:induction false} ReleasingUncounted<T>(s: State<T>, slots: seq<Option<T>>, v: T)
    requires AllTracked(s, slots) && v in s.objs && !s.objs[v].flags.counted
    ensures ReleaseAll(s, slots).drained[v] == s.drained[v]
    decreases |slots|
  {
    if slots != [] {
      ReleasingUncounted(ReleaseSlot(s, slots[0]), slots[1..], v);
    }
  }

  lemma ExchangingUncounted<T>(s: State<T>, news: seq<Option<T>>, olds: seq<Option<T>>, v: T)
    requires AllTracked(s, news) && AllTracked(s, olds) && v in s.objs && !s.objs[v].flags.counted
    ensures Exchange(s, news, olds).drained[v] == s.drained[v]
  {
    RetainAllShifts(s, news, v);
    ReleasingUncounted(RetainAll(s, news), olds, v);
  }

  lemma RebindNeverDrainsUncounted<T>(s: State<T>, op: Op<T>, v: T)
    requires Enabled(s, op) && v in s.objs && !s.objs[v].flags.counted
    requires op.SetValues? || op.SetCurrent? || op.Destroy?
    ensures Step(s, op).drained[v] == s.drained[v]
  {
    match op
    case SetValues(a, c, f, t) =>
      ExchangingUncounted(Unlink(s, a), [Some(c), Some(f), Some(t)], Slots(s.objs[a]), v);
    case SetCurrent(a, w) => ExchangingUncounted(Unlink(s, a), [Some(w)], [s.objs[a].current], v);
    case Destroy(a) => ExchangingUncounted(s, [], Slots(s.objs[a]), v);
  }

  lemma StepNeverDrainsUncounted<T>(s: State<T>, op: Op<T>, v: T)
    requires Enabled(s, op) && v in s.objs && !s.objs[v].flags.counted
    ensures Step(s, op).drained[v] == s.drained[v]
  {
    if op.SetValues? || op.SetCurrent? || op.Destroy? {
      RebindNeverDrainsUncounted(s, op, v);
    } else if op.Init? {
      ExchangingUncounted(Unlink(Put(s, op.this_, Constructed(op.raw)), op.this_),
                          [Some(op.current), Some(op.from), Some(op.to)], [None, None, None], v);
    }
  }

  /** An object whose counted bit is clear, such as a value that `fixed_value_init` made, is never handed to its
      deleting destructor by any run, however often it is bound and released. */
  lemma {:induction false} RunNeverDrainsUncounted<T>(s: State<T>, ops: seq<Op<T>>, v: T)
    requires WF(s) && AllEnabled(s, ops) && v in s.objs && !s.objs[v].flags.counted
    ensures Run(s, ops).drained[v] == s.drained[v]
    decreases |ops|
  {
    if ops != [] {
      StepKeepsWF(s, ops[0]);
      StepNeverDrainsUncounted(s, ops[0], v);
      StepTogether(s, ops[0], v);
      RunNeverDrainsUncounted(Step(s, ops[0]), ops[1..], v);
    }
  }

  // ---------------------------------------------------------------------------------------------
  // Nothing is drained while it is held, or twice
  // ---------------------------------------------------------------------------------------------

  /** What an operation retains, and what it releases. */
  ghost function Binds<T>(op: Op<T>): seq<Option<T>> {
    match op
    case Init(_, _, c, f, t) => [Some(c), Some(f), Some(t)]
    case SetValues(_, c, f, t) => [Some(c), Some(f), Some(t)]
    case SetCurrent(_, v) => [Some(v)]
    case RetainOutside(v) => [Some(v)]
    case _ => []
  }

  ghost function GivesBack<T>(s: State<T>, op: Op<T>): seq<Option<T>>
    requires Enabled(s, op)
  {
    match op
    case SetValues(a, _, _, _) => Slots(s.objs[a])
    case SetCurrent(a, _) => [s.objs[a].current]
    case Destroy(a) => Slots(s.objs[a])
    case ReleaseOutside(v) => [Some(v)]
    case _ => []
  }

  lemma GivesBackAtMost<T>(s: State<T>, op: Op<T>, v: T)
    requires Enabled(s, op) && Settled(s, v) && Entitled(s, op)
    ensures Occurrences(GivesBack(s, op), Some(v)) <= s.objs[v].flags.count
    ensures Occurrences(Binds(op), Some(v)) <= 3
  {
    match op
    case Init(_, _, c, f, t) => Threes(Some(c), Some(f), Some(t), Some(v));
    case SetValues(a, c, f, t) =>
      Threes(Some(c), Some(f), Some(t), Some(v));
      OwnedCoversSlots(s, a, v);
    case SetCurrent(a, w) => OwnedCoversSlots(s, a, v);
    case Destroy(a) => OwnedCoversSlots(s, a, v);
    case _ =>
  }

  lemma InitExchanges<T>(s: State<T>, a: T, raw: Obj<T>, c: T, f: T, t: T, v: T)
    requires Enabled(s, Init(a, raw, c, f, t)) && v in s.objs
    ensures Exchanges(s, Unlink(Put(s, a, Constructed(raw)), a), Initialized(s, a, raw, c, f, t), v,
                      [Some(c), Some(f), Some(t)], [None, None, None])
  {
  }

  lemma DestroyExchanges<T>(s: State<T>, a: T, v: T)
    requires Enabled(s, Destroy(a)) && v in s.objs
    ensures Exchanges(s, s, Destroyed(s, a), v, [], Slots(s.objs[a]))
  {
  }

  /** The one rule for all operations: a counted object's count moves by what is bound less what is given
      back, and it is drained exactly when it is given back, to the last reference, and not bound. */
  lemma StepDrains<T>(s: State<T>, op: Op<T>, v: T)
    requires Enabled(s, op) && Settled(s, v) && Entitled(s, op)
    ensures DrainsBy(s, Step(s, op), v, Occurrences(Binds(op), Some(v)), Occurrences(GivesBack(s, op), Some(v)))
  {
    GivesBackAtMost(s, op, v);
    if op.Init? || op.SetValues? || op.SetCurrent? || op.Destroy? {
      BindingStepDrains(s, op, v);
    } else {
      SimpleStepDrains(s, op, v);
    }
  }

  lemma SimpleStepDrains<T>(s: State<T>, op: Op<T>, v: T)
    requires Enabled(s, op) && Settled(s, v) && !(op.Init? || op.SetValues? || op.SetCurrent? || op.Destroy?)
    requires Occurrences(GivesBack(s, op), Some(v)) <= s.objs[v].flags.count
    ensures DrainsBy(s, Step(s, op), v, Occurrences(Binds(op), Some(v)), Occurrences(GivesBack(s, op), Some(v)))
  {
    if op.RetainOutside? || op.ReleaseOutside? {
      OutsideDrains(s, op, v);
    }
  }

  lemma OutsideDrains<T>(s: State<T>, op: Op<T>, v: T)
    requires Enabled(s, op) && Settled(s, v) && (op.RetainOutside? || op.ReleaseOutside?)
    requires Occurrences(GivesBack(s, op), Some(v)) <= s.objs[v].flags.count
    ensures DrainsBy(s, Step(s, op), v, Occurrences(Binds(op), Some(v)), Occurrences(GivesBack(s, op), Some(v)))
  {
    JustOne(op.value, v);
  }

  lemma JustOne<T>(w: T, v: T)
    ensures Occurrences([Some(w)], Some(v)) == if w == v then 1 else 0
  {
  }

  lemma InitDrainsBy<T>(s: State<T>, a: T, raw: Obj<T>, c: T, f: T, t: T, v: T)
    requires Enabled(s, Init(a, raw, c, f, t)) && Settled(s, v)
    ensures DrainsBy(s, Initialized(s, a, raw, c, f, t), v, Occurrences([Some(c), Some(f), Some(t)], Some(v)), 0)
  {
    InitExchanges(s, a, raw, c, f, t, v);
    NoOccurrences(v);
    Threes(Some(c), Some(f), Some(t), Some(v));
    ExchangesDrain(s, Unlink(Put(s, a, Constructed(raw)), a), Initialized(s, a, raw, c, f, t), v,
                   [Some(c), Some(f), Some(t)], [None, None, None]);
  }

  lemma BindingStepDrains<T>(s: State<T>, op: Op<T>, v: T)
    requires Enabled(s, op) && Settled(s, v) && (op.Init? || op.SetValues? || op.SetCurrent? || op.Destroy?)
    requires Occurrences(GivesBack(s, op), Some(v)) <= s.objs[v].flags.count
    requires Occurrences(Binds(op), Some(v)) <= 3
    ensures DrainsBy(s, Step(s, op), v, Occurrences(Binds(op), Some(v)), Occurrences(GivesBack(s, op), Some(v)))
  {
    match op
    case Init(a, raw, c, f, t) => InitDrainsBy(s, a, raw, c, f, t, v);
    case SetValues(a, c, f, t) =>
      SetValuesExchanges(s, a, c, f, t, v);
      ExchangesDrain(s, Unlink(s, a), ValuesSet(s, a, c, f, t), v, [Some(c), Some(f), Some(t)], Slots(s.objs[a]));
    case SetCurrent(a, w) =>
      SetCurrentExchanges(s, a, w, v);
      ExchangesDrain(s, Unlink(s, a), CurrentSet(s, a, w), v, [Some(w)], [s.objs[a].current]);
    case Destroy(a) =>
      DestroyExchanges(s, a, v);
      ExchangesDrain(s, s, Destroyed(s, a), v, [], Slots(s.objs[a]));
  }

  lemma {:induction false} ReleasingElsewhere<T>(s: State<T>, slots: seq<Option<T>>, v: T)
    requires AllTracked(s, slots) && v !in s.objs
    ensures ReleaseAll(s, slots).drained[v] == s.drained[v]
    decreases |slots|
  {
    if slots != [] {
      ReleasingElsewhere(ReleaseSlot(s, slots[0]), slots[1..], v);
    }
  }

  lemma InitDrainsTracked<T>(s: State<T>, a: T, raw: Obj<T>, c: T, f: T, t: T, v: T)
    requires Enabled(s, Init(a, raw, c, f, t)) && v !in s.objs
    ensures Initialized(s, a, raw, c, f, t).drained[v] == s.drained[v]
  {
    var u := Unlink(Put(s, a, Constructed(raw)), a);
    if v == a {
      ExchangingUncounted(u, [Some(c), Some(f), Some(t)], [None, None, None], v);
    } else {
      ReleasingElsewhere(RetainAll(u, [Some(c), Some(f), Some(t)]), [None, None, None], v);
    }
  }

  lemma RebindDrainsTracked<T>(s: State<T>, op: Op<T>, v: T)
    requires Enabled(s, op) && v !in s.objs && (op.SetValues? || op.SetCurrent? || op.Destroy?)
    ensures Step(s, op).drained[v] == s.drained[v]
  {
    match op
    case SetValues(a, c, f, t) =>
      ReleasingElsewhere(RetainAll(Unlink(s, a), [Some(c), Some(f), Some(t)]), Slots(s.objs[a]), v);
    case SetCurrent(a, w) => ReleasingElsewhere(RetainAll(Unlink(s, a), [Some(w)]), [s.objs[a].current], v);
    case Destroy(a) => ReleasingElsewhere(RetainAll(s, []), Slots(s.objs[a]), v);
  }

  /** What is not tracked yet is not drained. */
  lemma StepDrainsTracked<T>(s: State<T>, op: Op<T>, v: T)
    requires Enabled(s, op) && v !in s.objs
    ensures Step(s, op).drained[v] == s.drained[v]
  {
    if op.SetValues? || op.SetCurrent? || op.Destroy? {
      RebindDrainsTracked(s, op, v);
    } else if op.Init? {
      InitDrainsTracked(s, op.this_, op.raw, op.current, op.from, op.to, v);
    }
  }

  /** Whatever was drained was drained once, and has no reference left. */
  ghost predicate DrainedOnce<T>(s: State<T>) {
    forall v :: v in s.drained ==> Gone(s, v)
  }

  ghost predicate Gone<T>(s: State<T>, v: T) {
    v in s.objs && s.objs[v].flags.counted && s.objs[v].flags.count == 0 && s.drained[v] == 1
  }

  /** The operation binds nothing that was drained. */
  ghost predicate BindsUndrained<T>(s: State<T>, op: Op<T>) {
    forall v :: Some(v) in Binds(op) ==> v !in s.drained
  }

  /** Each step of the run has room in the counts, gives back what is its caller's, and binds nothing
      drained. */
  ghost predicate CarefulRun<T>(s: State<T>, ops: seq<Op<T>>)
    requires AllEnabled(s, ops)
    decreases |ops|
  {
    && Roomy(s)
    && (ops != [] ==>
          && s.live <= s.objs.Keys && Entitled(s, ops[0]) && BindsUndrained(s, ops[0])
          && CarefulRun(Step(s, ops[0]), ops[1..]))
  }

  lemma StepKeepsCounted<T>(s: State<T>, op: Op<T>, v: T)
    requires WF(s) && Enabled(s, op) && v in s.objs
    ensures v in Step(s, op).objs && Step(s, op).objs[v].flags.counted == s.objs[v].flags.counted
  {
    StepTogether(s, op, v);
  }

  lemma StepKeepsGone<T>(s: State<T>, op: Op<T>, v: T)
    requires WF(s) && Enabled(s, op) && Sound(s) && Roomy(s) && Entitled(s, op)
    requires DrainedOnce(s) && BindsUndrained(s, op) && v in Step(s, op).drained
    ensures Gone(Step(s, op), v)
  {
    if v !in s.objs {
      StepDrainsTracked(s, op, v);
    } else {
      StepKeepsCounted(s, op, v);
      if s.objs[v].flags.counted {
        StepDrains(s, op, v);
        GivesBackAtMost(s, op, v);
        if v in s.drained {
          AbsentOccurrences(Binds(op), Some(v));
        }
      } else {
        StepNeverDrainsUncounted(s, op, v);
      }
    }
  }

  /** No slot of a live animation holds a drained object. */
  ghost predicate HeldAlive<T>(s: State<T>)
    requires s.live <= s.objs.Keys
  {
    forall a, v :: a in s.live && Some(v) in Slots(s.objs[a]) ==> v !in s.drained
  }

  lemma {:induction false} PresentOccurrences<X>(xs: seq<X>, x: X)
    requires x in xs
    ensures Occurrences(xs, x) > 0
  {
    if xs[0] != x {
      PresentOccurrences(xs[1..], x);
    }
  }

  lemma DrainedIsNotHeld<T>(s: State<T>)
    requires Sound(s) && DrainedOnce(s)
    ensures HeldAlive(s)
  {
    forall a, v | a in s.live && Some(v) in Slots(s.objs[a])
      ensures v !in s.drained
    {
      PresentOccurrences(Slots(s.objs[a]), Some(v));
      OwnedCoversSlots(s, a, v);
      if v in s.objs {
        assert Backed(s, v);
      }
    }
  }

  /** Memory safety over runs: from a sound state in which nothing was drained while held, every careful
      run drains each object at most once, and never one that a live animation holds. */
  lemma {:induction false} RunNeverDrainsHeld<T>(s: State<T>, ops: seq<Op<T>>)
    requires WF(s) && Sound(s) && DrainedOnce(s) && AllEnabled(s, ops) && CarefulRun(s, ops)
    ensures Sound(Run(s, ops)) && HeldAlive(Run(s, ops))
    ensures forall v :: Run(s, ops).drained[v] <= 1
    decreases |ops|
  {
    if ops == [] {
      DrainedIsNotHeld(s);
      forall v
        ensures s.drained[v] <= 1
      {
        assert v in s.drained ==> Gone(s, v);
      }
    } else {
      var s' := Step(s, ops[0]);
      StepKeepsWF(s, ops[0]);
      StepKeepsSound(s, ops[0]);
      forall v | v in s'.drained
        ensures Gone(s', v)
      {
        StepKeepsGone(s, ops[0], v);
      }
      RunNeverDrainsHeld(s', ops[1..]);
    }
  }
}
