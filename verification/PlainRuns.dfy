/** Runs in which animations hold plain values only, whose aux words no operation changes. There the order
    of ranks needs no care from the caller beyond avoiding the one aux word whose successor wraps. */
module PlainRuns {
  import opened Words
  import opened WheelModel
  import opened AnimationModel
  import opened AnimationRuns
  import opened AnimationDrains
  import opened AnimationRanks
  import opened LowRuns

  /** `a` holds no live animation. */
  ghost predicate HoldsPlain<T>(s: State<T>, a: T)
    requires a in s.objs
  {
    forall v :: Some(v) in Slots(s.objs[a]) ==> v !in s.live
  }

  ghost predicate Plain<T>(s: State<T>) {
    forall a :: a in s.live && a in s.objs ==> HoldsPlain(s, a)
  }

  ghost predicate PlainValue<T>(s: State<T>, v: T)
    requires v in s.objs
  {
    v !in s.live && s.objs[v].rank < TWO_32 - 1
  }

  /** The operation binds plain values, none with the all-ones aux word. */
  ghost predicate PlainOp<T>(s: State<T>, op: Op<T>)
    requires Enabled(s, op)
  {
    match op
    case Init(a, raw, c, f, t) => PlainValue(s, c) && PlainValue(s, f) && PlainValue(s, t)
    case SetValues(a, c, f, t) => PlainValue(s, c) && PlainValue(s, f) && PlainValue(s, t)
    case SetCurrent(a, v) => PlainValue(s, v)
    case _ => true
  }

  lemma NobodyHolds<T>(s: State<T>, a: T, rank: u32)
    requires Plain(s) && a in s.live
    ensures Fits(s, a, rank)
  {
    forall h | h in s.live && h in s.objs
      ensures Some(a) !in Slots(s.objs[h])
    {
      assert HoldsPlain(s, h);
    }
  }

  lemma PlainIsOrderSafe<T>(s: State<T>, op: Op<T>)
    requires Plain(s) && Enabled(s, op) && PlainOp(s, op)
    ensures OrderSafe(s, op)
  {
    match op
    case SetValues(a, c, f, t) => NobodyHolds(s, a, RankOver(s, c, f, t));
    case SetCurrent(a, v) => NobodyHolds(s, a, RankRaised(s, a, v));
    case _ =>
  }

  lemma RebindKeepsPlain<T>(s: State<T>, s': State<T>, a: T, slots: seq<Option<T>>, rank: u32)
    requires WF(s) && Plain(s) && Rebinds(s, s', a, slots, rank)
    requires s'.live <= s.live + {a} && (a in s.objs ==> s'.live <= s.live)
    requires a in s'.live ==> forall v :: Some(v) in slots ==> v !in s.live && v != a
    ensures Plain(s')
  {
    forall h | h in s'.live && h in s'.objs
      ensures HoldsPlain(s', h)
    {
      if h != a {
        assert HoldsPlain(s, h) && SlotsOk(s.objs, h);
      }
    }
  }

  lemma SameSlotsPlain<T>(s: State<T>, s': State<T>)
    requires WF(s) && Plain(s) && s'.live == s.live && s.objs.Keys <= s'.objs.Keys
    requires forall n :: n in s.objs ==> s'.objs[n] == s.objs[n].(flags := s'.objs[n].flags)
    ensures Plain(s')
  {
    forall h | h in s'.live && h in s'.objs
      ensures HoldsPlain(s', h)
    {
      assert HoldsPlain(s, h);
    }
  }

  lemma AmongThree<T>(c: T, f: T, t: T)
    ensures forall v :: Some(v) in [Some(c), Some(f), Some(t)] <==> v == c || v == f || v == t
  {
    var slots := [Some(c), Some(f), Some(t)];
    assert slots[0] == Some(c) && slots[1] == Some(f) && slots[2] == Some(t);
  }

  lemma SetCurrentKeepsPlain<T>(s: State<T>, a: T, v: T)
    requires WF(s) && Plain(s) && Enabled(s, SetCurrent(a, v)) && PlainOp(s, SetCurrent(a, v))
    ensures Plain(CurrentSet(s, a, v))
  {
    var o := s.objs[a];
    var slots := [Some(v), o.from, o.to];
    SetCurrentRebinds(s, a, v);
    assert HoldsPlain(s, a);
    assert Slots(o)[1] == o.from && Slots(o)[2] == o.to;
    assert forall x :: Some(x) in slots ==> x == v || Some(x) in Slots(o);
    RebindKeepsPlain(s, CurrentSet(s, a, v), a, slots, RankRaised(s, a, v));
  }

  lemma InitKeepsPlain<T>(s: State<T>, a: T, raw: Obj<T>, c: T, f: T, t: T)
    requires WF(s) && Plain(s) && Enabled(s, Init(a, raw, c, f, t)) && PlainOp(s, Init(a, raw, c, f, t))
    ensures Plain(Initialized(s, a, raw, c, f, t))
  {
    InitRebinds(s, a, raw, c, f, t);
    AmongThree(c, f, t);
    RebindKeepsPlain(s, Initialized(s, a, raw, c, f, t), a, [Some(c), Some(f), Some(t)], RankOver(s, c, f, t));
  }

  lemma SetValuesKeepsPlain<T>(s: State<T>, a: T, c: T, f: T, t: T)
    requires WF(s) && Plain(s) && Enabled(s, SetValues(a, c, f, t)) && PlainOp(s, SetValues(a, c, f, t))
    ensures Plain(ValuesSet(s, a, c, f, t))
  {
    SetValuesRebinds(s, a, c, f, t);
    AmongThree(c, f, t);
    RebindKeepsPlain(s, ValuesSet(s, a, c, f, t), a, [Some(c), Some(f), Some(t)], RankOver(s, c, f, t));
  }

  lemma DestroyKeepsPlain<T>(s: State<T>, a: T)
    requires WF(s) && Plain(s) && Enabled(s, Destroy(a))
    ensures Plain(Destroyed(s, a))
  {
    DestroyRebinds(s, a);
    RebindKeepsPlain(s, Destroyed(s, a), a, Slots(s.objs[a]), s.objs[a].rank);
  }

  lemma SimpleStepKeepsPlain<T>(s: State<T>, op: Op<T>)
    requires WF(s) && Plain(s) && Enabled(s, op) && !IsBinding(op)
    ensures Plain(Step(s, op))
  {
    match op
    case Insert(n) => SameSlotsPlain(s, Link(s, n));
    case Remove(n) => SameSlotsPlain(s, Unlink(s, n));
    case NewValue(n, raw, q16) => SameSlotsPlain(s, Put(s, n, NewScalar(raw, q16)));
    case Adopt(n, image) => SameSlotsPlain(s, Put(s, n, image));
    case RetainOutside(n) => SameSlotsPlain(s, Retain(s, n));
    case ReleaseOutside(n) => SameSlotsPlain(s, Release(s, n));
  }

  lemma BindingStepKeepsPlain<T>(s: State<T>, op: Op<T>)
    requires WF(s) && Plain(s) && Enabled(s, op) && PlainOp(s, op) && IsBinding(op)
    ensures Plain(Step(s, op))
  {
    match op
    case Init(a, raw, c, f, t) => InitKeepsPlain(s, a, raw, c, f, t);
    case DefaultInit(a, raw) =>
      RebindKeepsPlain(s, DefaultInitialized(s, a, raw), a, [None, None, None], raw.rank);
    case SetValues(a, c, f, t) => SetValuesKeepsPlain(s, a, c, f, t);
    case SetCurrent(a, v) => SetCurrentKeepsPlain(s, a, v);
    case Destroy(a) => DestroyKeepsPlain(s, a);
  }

  lemma StepKeepsPlain<T>(s: State<T>, op: Op<T>)
    requires WF(s) && Plain(s) && Enabled(s, op) && PlainOp(s, op)
    ensures Plain(Step(s, op))
  {
    if IsBinding(op) {
      BindingStepKeepsPlain(s, op);
    } else {
      SimpleStepKeepsPlain(s, op);
    }
  }

  ghost predicate PlainRun<T>(s: State<T>, ops: seq<Op<T>>)
    requires AllEnabled(s, ops)
    decreases |ops|
  {
    ops != [] ==> PlainOp(s, ops[0]) && PlainRun(Step(s, ops[0]), ops[1..])
  }

  /** Over every run that binds plain values, whatever else it does, every live animation's rank exceeds
      the aux word of each of the three values it holds. */
  lemma {:induction false} PlainRunStaysOrdered<T>(s: State<T>, ops: seq<Op<T>>)
    requires WF(s) && Plain(s) && Ordered(s) && AllEnabled(s, ops) && PlainRun(s, ops)
    ensures Plain(Run(s, ops)) && Ordered(Run(s, ops))
    decreases |ops|
  {
    if ops != [] {
      StepKeepsWF(s, ops[0]);
      StepKeepsPlain(s, ops[0]);
      PlainIsOrderSafe(s, ops[0]);
      StepOrder(s, ops[0]);
      PlainRunStaysOrdered(Step(s, ops[0]), ops[1..]);
    }
  }

  /** The zeroed table and nothing in it. */
  ghost function EmptyWheel<T>(): State<T> {
    State(seq(BUCKETS, _ => []), map[], {}, multiset{})
  }

  /** The empty wheel starts all of this. */
  lemma EmptyStarts<T>(s: State<T>)
    requires s == EmptyWheel()
    ensures WF(s) && Plain(s) && Ordered(s) && Sound(s) && DrainedOnce(s) && Low(s)
  {
    EmptyIsLow(s);
  }

  lemma {:induction false} RunKeepsWF<T>(s: State<T>, ops: seq<Op<T>>)
    requires WF(s) && AllEnabled(s, ops)
    ensures WF(Run(s, ops))
    decreases |ops|
  {
    if ops != [] {
      StepKeepsWF(s, ops[0]);
      RunKeepsWF(Step(s, ops[0]), ops[1..]);
    }
  }

  /** From the empty wheel, a run of low ranks that binds plain values and is careful with references
      never misses a bucket, keeps the wheel well-formed and the animations ordered, and never drains
      what is held. */
  lemma RunFromEmpty<T>(s: State<T>, ops: seq<Op<T>>)
    requires s == EmptyWheel() && LowRun(s, ops)
    requires AllEnabled(s, ops) ==> PlainRun(s, ops) && CarefulRun(s, ops)
    ensures AllEnabled(s, ops)
    ensures var r := Run(s, ops); WF(r) && Low(r) && Plain(r) && Ordered(r) && Sound(r) && HeldAlive(r)
  {
    EmptyStarts(s);
    LowRunIsEnabled(s, ops);
    RunKeepsWF(s, ops);
    PlainRunStaysOrdered(s, ops);
    RunNeverDrainsHeld(s, ops);
  }
}
