/** Ranks over the animation operations: their history, and the order they keep. */
module AnimationRanks {
  import opened Words
  import opened WheelModel
  import opened AnimationModel
  import opened AnimationRuns

  // ---------------------------------------------------------------------------------------------
  // Rank history
  // ---------------------------------------------------------------------------------------------

  ghost function MaxOf(h: seq<u32>): u32
    requires h != []
  {
    if |h| == 1 then h[0] else Max(MaxOf(h[..|h| - 1]), h[|h| - 1])
  }

  /** The aux words read for `a` since its last full rebind. */
  ghost function History<T>(s: State<T>, op: Op<T>, a: T, h: seq<u32>): seq<u32>
    requires Enabled(s, op)
  {
    match op
    case SetValues(x, c, f, t) =>
      if x == a then [s.objs[f].rank, s.objs[t].rank, s.objs[c].rank] else h
    case SetCurrent(x, v) => if x == a then h + [s.objs[v].rank] else h
    case _ => h
  }

  /** No aux word read for `a` is the all-ones word, whose successor wraps to rank zero. */
  ghost predicate NoWrap<T>(s: State<T>, op: Op<T>, a: T)
    requires Enabled(s, op)
  {
    match op
    case SetValues(x, c, f, t) =>
      x == a ==> s.objs[f].rank < TWO_32 - 1 && s.objs[t].rank < TWO_32 - 1 && s.objs[c].rank < TWO_32 - 1
    case SetCurrent(x, v) => x == a ==> s.objs[v].rank < TWO_32 - 1
    case _ => true
  }

  lemma MaxOfThree(x: u32, y: u32, z: u32)
    ensures MaxOf([x, y, z]) == Highest(x, y, z)
  {
    assert [x, y, z][..2] == [x, y] && [x, y][..1] == [x];
    assert MaxOf([x, y]) == Max(x, y);
  }

  lemma MaxOfAppend(h: seq<u32>, x: u32)
    requires h != []
    ensures MaxOf(h + [x]) == Max(MaxOf(h), x)
  {
    assert (h + [x])[..|h|] == h;
  }

  lemma RankOverIsMax<T>(s: State<T>, c: T, f: T, t: T)
    requires c in s.objs && f in s.objs && t in s.objs
    requires s.objs[f].rank < TWO_32 - 1 && s.objs[t].rank < TWO_32 - 1 && s.objs[c].rank < TWO_32 - 1
    ensures RankOver(s, c, f, t) == 1 + MaxOf([s.objs[f].rank, s.objs[t].rank, s.objs[c].rank])
  {
    MaxOfThree(s.objs[f].rank, s.objs[t].rank, s.objs[c].rank);
  }

  ghost function NextRank<T>(s: State<T>, op: Op<T>, a: T): u32
    requires Enabled(s, op) && a in s.objs
  {
    match op
    case SetValues(x, c, f, t) => if x == a then RankOver(s, c, f, t) else s.objs[a].rank
    case SetCurrent(x, v) => if x == a then RankRaised(s, a, v) else s.objs[a].rank
    case _ => s.objs[a].rank
  }

  /** Only a rebind of `a` itself changes its rank. */
  lemma RankAfter<T>(s: State<T>, op: Op<T>, a: T)
    requires Enabled(s, op) && a in s.objs
    ensures a in Step(s, op).objs && Step(s, op).objs[a].rank == NextRank(s, op, a)
  {
    match op
    case Init(x, raw, c, f, t) => InitRebinds(s, x, raw, c, f, t);
    case SetValues(x, c, f, t) => SetValuesRebinds(s, x, c, f, t);
    case SetCurrent(x, v) => SetCurrentRebinds(s, x, v);
    case Destroy(x) => DestroyRebinds(s, x);
    case _ =>
  }

  lemma NextRankTracks<T>(s: State<T>, op: Op<T>, a: T, h: seq<u32>)
    requires Enabled(s, op) && a in s.objs && NoWrap(s, op, a)
    requires h != [] && s.objs[a].rank == 1 + MaxOf(h)
    ensures History(s, op, a, h) != []
    ensures NextRank(s, op, a) == 1 + MaxOf(History(s, op, a, h))
  {
    match op
    case SetValues(x, c, f, t) =>
      if x == a {
        RankOverIsMax(s, c, f, t);
      }
    case SetCurrent(x, v) =>
      if x == a {
        MaxOfAppend(h, s.objs[v].rank);
        assert RankRaised(s, a, v) == Max(s.objs[a].rank, s.objs[v].rank + 1);
      }
    case _ =>
  }

  ghost function RunHistory<T>(s: State<T>, ops: seq<Op<T>>, a: T, h: seq<u32>): seq<u32>
    requires AllEnabled(s, ops)
    decreases |ops|
  {
    if ops == [] then h else RunHistory(Step(s, ops[0]), ops[1..], a, History(s, ops[0], a, h))
  }

  ghost predicate RunNoWrap<T>(s: State<T>, ops: seq<Op<T>>, a: T)
    requires AllEnabled(s, ops)
    decreases |ops|
  {
    ops != [] ==> NoWrap(s, ops[0], a) && RunNoWrap(Step(s, ops[0]), ops[1..], a)
  }

  /** Over every run, interleaved with any operations on any other objects, the rank of an animation
      is one more than the largest aux word read for it since its last full rebind. */
  lemma {:induction false} RunTracksHistory<T>(s: State<T>, ops: seq<Op<T>>, a: T, h: seq<u32>)
    requires AllEnabled(s, ops) && a in s.objs && RunNoWrap(s, ops, a)
    requires h != [] && s.objs[a].rank == 1 + MaxOf(h)
    ensures a in Run(s, ops).objs && RunHistory(s, ops, a, h) != []
    ensures Run(s, ops).objs[a].rank == 1 + MaxOf(RunHistory(s, ops, a, h))
    decreases |ops|
  {
    if ops != [] {
      RankAfter(s, ops[0], a);
      NextRankTracks(s, ops[0], a, h);
      RunTracksHistory(Step(s, ops[0]), ops[1..], a, History(s, ops[0], a, h));
    }
  }

  /** A construction starts such a history. */
  lemma InitStartsHistory<T>(s: State<T>, a: T, raw: Obj<T>, c: T, f: T, t: T)
    requires Enabled(s, Init(a, raw, c, f, t))
    requires s.objs[f].rank < TWO_32 - 1 && s.objs[t].rank < TWO_32 - 1 && s.objs[c].rank < TWO_32 - 1
    ensures a in Step(s, Init(a, raw, c, f, t)).objs
    ensures Step(s, Init(a, raw, c, f, t)).objs[a].rank ==
            1 + MaxOf([s.objs[f].rank, s.objs[t].rank, s.objs[c].rank])
  {
    InitRebinds(s, a, raw, c, f, t);
    RankOverIsMax(s, c, f, t);
  }

  // ---------------------------------------------------------------------------------------------
  // Ranks order animations after what they hold
  // ---------------------------------------------------------------------------------------------

  ghost predicate Dominates<T>(s: State<T>, a: T)
    requires a in s.objs
  {
    forall v :: v in s.objs && Some(v) in Slots(s.objs[a]) ==> s.objs[v].rank < s.objs[a].rank
  }

  /** Every live animation outranks the objects in its slots, so lower buckets hold what higher ones
      depend on. */
  ghost predicate Ordered<T>(s: State<T>) {
    forall a :: a in s.live && a in s.objs ==> Dominates(s, a)
  }

  /** `rank` stays below the rank of every other animation that holds `a`. */
  ghost predicate Fits<T>(s: State<T>, a: T, rank: u32) {
    forall h :: h in s.live && h in s.objs && h != a && Some(a) in Slots(s.objs[h]) ==> rank < s.objs[h].rank
  }

  /** What a caller would have to check for an operation to keep the order. */
  ghost predicate OrderSafe<T>(s: State<T>, op: Op<T>)
    requires Enabled(s, op)
  {
    match op
    case Init(a, raw, c, f, t) =>
      s.objs[f].rank < TWO_32 - 1 && s.objs[t].rank < TWO_32 - 1 && s.objs[c].rank < TWO_32 - 1
    case SetValues(a, c, f, t) =>
      && s.objs[f].rank < TWO_32 - 1 && s.objs[t].rank < TWO_32 - 1 && s.objs[c].rank < TWO_32 - 1
      && a != c && a != f && a != t && Fits(s, a, RankOver(s, c, f, t))
    case SetCurrent(a, v) => s.objs[v].rank < TWO_32 - 1 && a != v && Fits(s, a, RankRaised(s, a, v))
    case _ => true
  }

  /** `rank` exceeds the rank of everything in `slots`, and `a` is not among it. */
  ghost predicate Exceeds<T>(s: State<T>, a: T, slots: seq<Option<T>>, rank: u32) {
    (forall v :: v in s.objs && v != a && Some(v) in slots ==> s.objs[v].rank < rank) && Some(a) !in slots
  }

  /** A rebind keeps the order exactly when the new rank exceeds the aux of everything now held and
      fits under every holder. */
  lemma RebindOrder<T>(s: State<T>, s': State<T>, a: T, slots: seq<Option<T>>, rank: u32)
    requires WF(s) && Ordered(s) && Rebinds(s, s', a, slots, rank) && s'.live == s.live + {a}
    ensures Ordered(s') <==> Exceeds(s, a, slots, rank) && Fits(s, a, rank)
  {
    assert Dominates(s', a) <==> Exceeds(s, a, slots, rank);
    forall h | h in s.live && h != a
      ensures Dominates(s', h) <==> (Some(a) in Slots(s.objs[h]) ==> rank < s.objs[h].rank)
    {
      assert Dominates(s, h);
    }
  }

  lemma OneBound<T>(s: State<T>, a: T, w: T)
    requires a in s.objs && w in s.objs && Dominates(s, a)
    ensures var o := s.objs[a];
            Exceeds(s, a, [Some(w), o.from, o.to], RankRaised(s, a, w)) <==> s.objs[w].rank < TWO_32 - 1 && a != w
  {
    var o := s.objs[a];
    var slots := [Some(w), o.from, o.to];
    assert slots[0] == Some(w) && Slots(o)[1] == o.from && Slots(o)[2] == o.to;
    assert forall v :: Some(v) in slots ==> v == w || Some(v) in Slots(o);
  }

  /** Stated of any state that differs from `s` as a rebind of the current value does. */
  lemma RebindCurrentOrder<T>(s: State<T>, s': State<T>, a: T, v: T)
    requires WF(s) && Ordered(s) && Owner(s, a) && v in s.objs && s'.live == s.live
    requires Rebinds(s, s', a, [Some(v), s.objs[a].from, s.objs[a].to], RankRaised(s, a, v))
    ensures Ordered(s') <==> s.objs[v].rank < TWO_32 - 1 && a != v && Fits(s, a, RankRaised(s, a, v))
  {
    var o := s.objs[a];
    assert s.live + {a} == s.live;
    RebindOrder(s, s', a, [Some(v), o.from, o.to], RankRaised(s, a, v));
    OneBound(s, a, v);
  }

  lemma SetCurrentOrder<T>(s: State<T>, a: T, v: T)
    requires WF(s) && Ordered(s) && Enabled(s, SetCurrent(a, v))
    ensures Ordered(CurrentSet(s, a, v)) <==> OrderSafe(s, SetCurrent(a, v))
  {
    SetCurrentRebinds(s, a, v);
    RebindCurrentOrder(s, CurrentSet(s, a, v), a, v);
  }

  lemma ThreeBound<T>(s: State<T>, c: T, f: T, t: T, a: T)
    requires c in s.objs && f in s.objs && t in s.objs
    ensures Exceeds(s, a, [Some(c), Some(f), Some(t)], RankOver(s, c, f, t)) <==>
                 && s.objs[f].rank < TWO_32 - 1 && s.objs[t].rank < TWO_32 - 1 && s.objs[c].rank < TWO_32 - 1
                 && a != c && a != f && a != t
  {
    var slots := [Some(c), Some(f), Some(t)];
    assert slots[0] == Some(c) && slots[1] == Some(f) && slots[2] == Some(t);
    assert forall v :: Some(v) in slots <==> v == c || v == f || v == t;
  }

  lemma RebindValuesOrder<T>(s: State<T>, s': State<T>, a: T, c: T, f: T, t: T)
    requires WF(s) && Ordered(s) && Owner(s, a) && c in s.objs && f in s.objs && t in s.objs && s'.live == s.live
    requires Rebinds(s, s', a, [Some(c), Some(f), Some(t)], RankOver(s, c, f, t))
    ensures Ordered(s') <==>
              && s.objs[f].rank < TWO_32 - 1 && s.objs[t].rank < TWO_32 - 1 && s.objs[c].rank < TWO_32 - 1
              && a != c && a != f && a != t && Fits(s, a, RankOver(s, c, f, t))
  {
    assert s.live + {a} == s.live;
    RebindOrder(s, s', a, [Some(c), Some(f), Some(t)], RankOver(s, c, f, t));
    ThreeBound(s, c, f, t, a);
  }

  lemma SetValuesOrder<T>(s: State<T>, a: T, c: T, f: T, t: T)
    requires WF(s) && Ordered(s) && Enabled(s, SetValues(a, c, f, t))
    ensures Ordered(ValuesSet(s, a, c, f, t)) <==> OrderSafe(s, SetValues(a, c, f, t))
  {
    SetValuesRebinds(s, a, c, f, t);
    RebindValuesOrder(s, ValuesSet(s, a, c, f, t), a, c, f, t);
  }

  /** A fresh animation is held by nobody. */
  lemma FreshFits<T>(s: State<T>, a: T, rank: u32)
    requires WF(s) && a !in s.objs
    ensures Fits(s, a, rank)
  {
    forall h | h in s.live
      ensures Some(a) !in Slots(s.objs[h])
    {
      assert SlotsOk(s.objs, h);
    }
  }

  lemma InitOrder<T>(s: State<T>, a: T, raw: Obj<T>, c: T, f: T, t: T)
    requires WF(s) && Ordered(s) && Enabled(s, Init(a, raw, c, f, t))
    ensures Ordered(Initialized(s, a, raw, c, f, t)) <==> OrderSafe(s, Init(a, raw, c, f, t))
  {
    InitRebinds(s, a, raw, c, f, t);
    RebindOrder(s, Initialized(s, a, raw, c, f, t), a, [Some(c), Some(f), Some(t)], RankOver(s, c, f, t));
    ThreeBound(s, c, f, t, a);
    FreshFits(s, a, RankOver(s, c, f, t));
  }

  lemma DestroyOrder<T>(s: State<T>, a: T)
    requires WF(s) && Ordered(s) && Enabled(s, Destroy(a))
    ensures Ordered(Destroyed(s, a))
  {
    DestroyRebinds(s, a);
    forall h | h in s.live && h != a
      ensures Dominates(Destroyed(s, a), h)
    {
      assert Dominates(s, h);
    }
  }

  lemma SameRanksOrder<T>(s: State<T>, s': State<T>)
    requires WF(s) && Ordered(s) && s'.live == s.live && s.objs.Keys <= s'.objs.Keys
    requires forall n :: n in s.objs ==> s'.objs[n] == s.objs[n].(flags := s'.objs[n].flags)
    ensures Ordered(s')
  {
    forall h | h in s'.live
      ensures Dominates(s', h)
    {
      assert Dominates(s, h) && SlotsOk(s.objs, h);
    }
  }

  lemma DefaultInitOrder<T>(s: State<T>, a: T, raw: Obj<T>)
    requires WF(s) && Ordered(s) && a !in s.objs
    ensures Ordered(DefaultInitialized(s, a, raw))
  {
    RebindOrder(s, DefaultInitialized(s, a, raw), a, [None, None, None], raw.rank);
    FreshFits(s, a, raw.rank);
  }

  lemma SimpleStepOrder<T>(s: State<T>, op: Op<T>)
    requires WF(s) && Ordered(s) && Enabled(s, op) && !IsBinding(op)
    ensures Ordered(Step(s, op))
  {
    match op
    case Insert(n) => SameRanksOrder(s, Link(s, n));
    case Remove(n) => SameRanksOrder(s, Unlink(s, n));
    case NewValue(n, raw, q16) => SameRanksOrder(s, Put(s, n, NewScalar(raw, q16)));
    case Adopt(n, image) => SameRanksOrder(s, Put(s, n, image));
    case RetainOutside(n) => SameRanksOrder(s, Retain(s, n));
    case ReleaseOutside(n) => SameRanksOrder(s, Release(s, n));
  }

  lemma BindingStepOrder<T>(s: State<T>, op: Op<T>)
    requires WF(s) && Ordered(s) && Enabled(s, op) && IsBinding(op)
    ensures Ordered(Step(s, op)) <==> OrderSafe(s, op)
  {
    match op
    case Init(a, raw, c, f, t) => InitOrder(s, a, raw, c, f, t);
    case DefaultInit(a, raw) => DefaultInitOrder(s, a, raw);
    case SetValues(a, c, f, t) => SetValuesOrder(s, a, c, f, t);
    case SetCurrent(a, v) => SetCurrentOrder(s, a, v);
    case Destroy(a) => DestroyOrder(s, a);
  }

  /** From an ordered state an operation leads to an ordered state exactly when it is OrderSafe. */
  lemma StepOrder<T>(s: State<T>, op: Op<T>)
    requires WF(s) && Ordered(s) && Enabled(s, op)
    ensures Ordered(Step(s, op)) <==> OrderSafe(s, op)
  {
    if IsBinding(op) {
      BindingStepOrder(s, op);
    } else {
      SimpleStepOrder(s, op);
    }
  }

  ghost predicate OrderSafeRun<T>(s: State<T>, ops: seq<Op<T>>)
    requires AllEnabled(s, ops)
    decreases |ops|
  {
    ops != [] ==> OrderSafe(s, ops[0]) && OrderSafeRun(Step(s, ops[0]), ops[1..])
  }

  /** Every state that the run goes through is ordered. */
  ghost predicate OrderedThroughout<T>(s: State<T>, ops: seq<Op<T>>)
    requires AllEnabled(s, ops)
    decreases |ops|
  {
    Ordered(s) && (ops != [] ==> OrderedThroughout(Step(s, ops[0]), ops[1..]))
  }

  /** A run from an ordered state stays ordered exactly when each of its operations is OrderSafe. */
  lemma {:induction false} RunStaysOrdered<T>(s: State<T>, ops: seq<Op<T>>)
    requires WF(s) && Ordered(s) && AllEnabled(s, ops)
    ensures OrderedThroughout(s, ops) <==> OrderSafeRun(s, ops)
    ensures OrderSafeRun(s, ops) ==> Ordered(Run(s, ops))
    decreases |ops|
  {
    if ops != [] {
      StepKeepsWF(s, ops[0]);
      StepOrder(s, ops[0]);
      if OrderSafe(s, ops[0]) {
        RunStaysOrdered(Step(s, ops[0]), ops[1..]);
      }
    }
  }

  // ---------------------------------------------------------------------------------------------
  // How the order is lost
  // ---------------------------------------------------------------------------------------------

  lemma HolderOvertaken<T>(s: State<T>, a: T, v: T, h: T)
    requires WF(s) && Ordered(s) && Enabled(s, SetCurrent(a, v))
    requires h in s.live && h != a && Some(a) in Slots(s.objs[h]) && s.objs[h].rank <= RankRaised(s, a, v)
    ensures !Ordered(CurrentSet(s, a, v))
  {
    SetCurrentOrder(s, a, v);
  }

  /** The facts of one construction over `c` and twice over a value of aux zero. */
  ghost predicate Placed<T>(s: State<T>, s': State<T>, a: T, c: T, p: T) {
    && a in s'.live && s'.objs.Keys == s.objs.Keys + {a} && s.live <= s'.live
    && a in s'.objs && c in s.objs && Slots(s'.objs[a]) == [Some(c), Some(p), Some(p)]
    && s'.objs[a].rank == s.objs[c].rank + 1
    && (forall n :: n in s.objs && n != a ==> s'.objs[n].rank == s.objs[n].rank && Slots(s'.objs[n]) == Slots(s.objs[n]))
  }

  lemma PlaceOver<T>(s: State<T>, a: T, raw: Obj<T>, c: T, p: T)
    requires WF(s) && Ordered(s) && a !in s.objs && c in s.objs && p in s.objs
    requires s.objs[p].rank == 0 && s.objs[c].rank <= 1
    ensures var op := Init(a, raw, c, p, p);
            Enabled(s, op) && WF(Step(s, op)) && Ordered(Step(s, op)) && Placed(s, Step(s, op), a, c, p)
  {
    var op := Init(a, raw, c, p, p);
    assert RankOver(s, c, p, p) == s.objs[c].rank + 1;
    assert Enabled(s, op);
    StepKeepsWF(s, op);
    InitRebinds(s, a, raw, c, p, p);
    StepOrder(s, op);
  }

  /** The run leads to an ordered state from which binding `x` to `y` leads to one that is not. */
  ghost predicate Breaks<T>(s: State<T>, ops: seq<Op<T>>, x: T, y: T) {
    && AllEnabled(s, ops)
    && var r := Run(s, ops);
       Ordered(r) && Enabled(r, SetCurrent(y, x)) && !Ordered(Step(r, SetCurrent(y, x)))
  }

  lemma OneStepMore<T>(s: State<T>, ops: seq<Op<T>>, x: T, y: T)
    requires ops != [] && Enabled(s, ops[0]) && Breaks(Step(s, ops[0]), ops[1..], x, y)
    ensures Breaks(s, ops, x, y)
  {
  }

  /** Binding `x` to `y` raises `y` to the rank of its holder `z`, which is not ranked again. */
  lemma NestingBreaks<T>(s: State<T>, p: T, x: T, y: T, z: T)
    requires WF(s) && Ordered(s) && x != y && y != z && y in s.live && z in s.live
    requires x in s.objs && s.objs[x].rank == 1 && y in s.objs && s.objs[y].rank == 1
    requires z in s.objs && s.objs[z].rank == 2 && Slots(s.objs[z]) == [Some(y), Some(p), Some(p)]
    ensures Breaks(s, [], x, y)
  {
    assert RankRaised(s, y, x) == 2;
    assert Slots(s.objs[z])[0] == Some(y);
    assert Owner(s, y);
    HolderOvertaken(s, y, x, z);
  }

  lemma NestHolder<T>(s: State<T>, p: T, x: T, y: T, z: T, raw: Obj<T>)
    requires WF(s) && Ordered(s) && p in s.objs && s.objs[p].rank == 0 && x != y && z !in s.objs
    requires x in s.objs && s.objs[x].rank == 1 && y in s.objs && s.objs[y].rank == 1 && y in s.live
    ensures Breaks(s, [Init(z, raw, y, p, p)], x, y)
  {
    var ops := [Init(z, raw, y, p, p)];
    PlaceOver(s, z, raw, y, p);
    NestingBreaks(Step(s, ops[0]), p, x, y, z);
    assert ops[1..] == [];
    OneStepMore(s, ops, x, y);
  }

  lemma NestInner<T>(s: State<T>, p: T, x: T, y: T, z: T, raw: Obj<T>)
    requires WF(s) && Ordered(s) && p in s.objs && s.objs[p].rank == 0
    requires x in s.objs && s.objs[x].rank == 1 && y !in s.objs && z !in s.objs && y != z
    ensures Breaks(s, [Init(y, raw, p, p, p), Init(z, raw, y, p, p)], x, y)
  {
    var ops := [Init(y, raw, p, p, p), Init(z, raw, y, p, p)];
    PlaceOver(s, y, raw, p, p);
    NestHolder(Step(s, ops[0]), p, x, y, z, raw);
    assert ops[1..] == [Init(z, raw, y, p, p)];
    OneStepMore(s, ops, x, y);
  }

  /** The order is not kept unconditionally: from every ordered state with a value of aux zero, such as
      the empty wheel after one `fixed_value_init`, three constructions keep it and the next
      set_current_value breaks it. */
  lemma NestedRankOvertakes<T>(s: State<T>, p: T, x: T, y: T, z: T, raw: Obj<T>)
    requires WF(s) && Ordered(s) && p in s.objs && s.objs[p].rank == 0
    requires x !in s.objs && y !in s.objs && z !in s.objs && x != y && y != z && x != z
    ensures Breaks(s, [Init(x, raw, p, p, p), Init(y, raw, p, p, p), Init(z, raw, y, p, p)], x, y)
  {
    var ops := [Init(x, raw, p, p, p), Init(y, raw, p, p, p), Init(z, raw, y, p, p)];
    PlaceOver(s, x, raw, p, p);
    NestInner(Step(s, ops[0]), p, x, y, z, raw);
    assert ops[1..] == [Init(y, raw, p, p, p), Init(z, raw, y, p, p)];
    OneStepMore(s, ops, x, y);
  }
}
