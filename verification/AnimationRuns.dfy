/** What holds over every run of wheel and animation operations on the simple form. */
module AnimationRuns {
  import opened Words
  import opened WheelModel
  import opened AnimationModel

  // ---------------------------------------------------------------------------------------------
  // References owned by slots
  // ---------------------------------------------------------------------------------------------

  /** How many slots of live animations hold `v`. */
  ghost function Owned<T>(objs: map<T, Obj<T>>, live: set<T>, v: T): (n: int)
    requires live <= objs.Keys
    ensures n >= 0
    decreases |live|
  {
    if live == {} then 0
    else
      var a :| a in live;
      Occurrences(Slots(objs[a]), Some(v)) + Owned(objs, live - {a}, v)
  }

  lemma {:induction false} OwnedPick<T>(objs: map<T, Obj<T>>, live: set<T>, v: T, a: T)
    requires live <= objs.Keys && a in live
    ensures Owned(objs, live, v) == Occurrences(Slots(objs[a]), Some(v)) + Owned(objs, live - {a}, v)
    decreases |live|
  {
    var b :| b in live && Owned(objs, live, v) == Occurrences(Slots(objs[b]), Some(v)) + Owned(objs, live - {b}, v);
    if a != b {
      OwnedPick(objs, live - {b}, v, a);
      OwnedPick(objs, live - {a}, v, b);
      assert live - {b} - {a} == live - {a} - {b};
    }
  }

  lemma {:induction false} OwnedSame<T>(objs: map<T, Obj<T>>, objs': map<T, Obj<T>>, live: set<T>, v: T)
    requires live <= objs.Keys && live <= objs'.Keys
    requires forall a :: a in live ==> Slots(objs[a]) == Slots(objs'[a])
    ensures Owned(objs, live, v) == Owned(objs', live, v)
    decreases |live|
  {
    if live != {} {
      var a :| a in live;
      OwnedPick(objs, live, v, a);
      OwnedPick(objs', live, v, a);
      OwnedSame(objs, objs', live - {a}, v);
    }
  }

  /** Moved by `d`, apart from the linked bit. */
  ghost predicate CountMoves(before: Flags, after: Flags, d: int) {
    after == before.Moved(d).(linked := after.linked)
  }

  lemma ReboundMoves<T>(s: State<T>, a: T, news: seq<Option<T>>, olds: seq<Option<T>>,
                        from: Option<T>, to: Option<T>, current: Option<T>, rank: u32, v: T, d: int)
    requires a in s.objs && AllTracked(s, news) && AllTracked(s, olds) && v in s.objs
    requires d == Occurrences(news, Some(v)) - Occurrences(olds, Some(v))
    ensures CountMoves(s.objs[v].flags, Rebound(s, a, news, olds, from, to, current, rank).objs[v].flags, d)
  {
    ExchangeMoves(s, Unlink(s, a), news, olds, v, d);
  }

  lemma ExchangeMoves<T>(s: State<T>, u: State<T>, news: seq<Option<T>>, olds: seq<Option<T>>, v: T, d: int)
    requires v in s.objs && v in u.objs && AllTracked(u, news) && AllTracked(u, olds)
    requires u.objs[v].flags == s.objs[v].flags.(linked := u.objs[v].flags.linked)
    requires d == Occurrences(news, Some(v)) - Occurrences(olds, Some(v))
    ensures CountMoves(s.objs[v].flags, Exchange(u, news, olds).objs[v].flags, d)
  {
    ExchangeShifts(u, news, olds, v);
  }

  /** Linking moves no count. */
  lemma LinkMoves<T>(before: Flags, r: State<T>, a: T, v: T, d: int)
    requires a in r.objs && v in r.objs && CountMoves(before, r.objs[v].flags, d)
    ensures v in Link(r, a).objs && CountMoves(before, Link(r, a).objs[v].flags, d)
  {
  }

  lemma NoOccurrences<T>(v: T)
    ensures Occurrences<Option<T>>([], Some(v)) == 0
    ensures Occurrences<Option<T>>([None, None, None], Some(v)) == 0
  {
  }

  lemma InitMoves<T>(s: State<T>, a: T, raw: Obj<T>, c: T, f: T, t: T, v: T)
    requires Enabled(s, Init(a, raw, c, f, t)) && v in s.objs
    ensures CountMoves(s.objs[v].flags, Initialized(s, a, raw, c, f, t).objs[v].flags,
                  Occurrences([Some(c), Some(f), Some(t)], Some(v)))
  {
    var d := Occurrences([Some(c), Some(f), Some(t)], Some(v));
    var s1 := Put(s, a, Constructed(raw));
    NoOccurrences(v);
    ReboundMoves(s1, a, [Some(c), Some(f), Some(t)], [None, None, None],
                 Some(f), Some(t), Some(c), RankOver(s, c, f, t), v, d);
    var b := Rebound(s1, a, [Some(c), Some(f), Some(t)], [None, None, None],
                     Some(f), Some(t), Some(c), RankOver(s, c, f, t));
    LinkMoves(s.objs[v].flags, b.(live := b.live + {a}), a, v, d);
  }

  lemma DestroyMoves<T>(s: State<T>, a: T, v: T)
    requires Enabled(s, Destroy(a)) && v in s.objs
    ensures CountMoves(s.objs[v].flags, Destroyed(s, a).objs[v].flags, -Occurrences(Slots(s.objs[a]), Some(v)))
  {
    NoOccurrences(v);
    ExchangeShifts(s, [], Slots(s.objs[a]), v);
  }

  // ---------------------------------------------------------------------------------------------
  // Well-formedness over runs
  // ---------------------------------------------------------------------------------------------

  lemma InitKeepsWF<T>(s: State<T>, a: T, raw: Obj<T>, c: T, f: T, t: T)
    requires WF(s) && Enabled(s, Init(a, raw, c, f, t))
    ensures WF(Initialized(s, a, raw, c, f, t))
  {
    var s1 := Put(s, a, Constructed(raw));
    PutKeepsWF(s, a, Constructed(raw), s.live);
    var b := Rebound(s1, a, [Some(c), Some(f), Some(t)], [None, None, None],
                     Some(f), Some(t), Some(c), RankOver(s, c, f, t));
    ReboundKeepsWF(s1, a, [Some(c), Some(f), Some(t)], [None, None, None],
                   Some(f), Some(t), Some(c), RankOver(s, c, f, t));
    PutKeepsWF(b, a, b.objs[a], b.live + {a});
    assert b.objs[a := b.objs[a]] == b.objs;
    LinkKeepsWF(b.(live := b.live + {a}), a);
  }

  lemma DestroyKeepsWF<T>(s: State<T>, a: T)
    requires WF(s) && Enabled(s, Destroy(a))
    ensures WF(Destroyed(s, a))
  {
    var e := Exchange(s, [], Slots(s.objs[a]));
    ExchangeCountsOnly(s, [], Slots(s.objs[a]));
    CountsOnlyKeepsWF(s, e.objs, e.drained);
    PutKeepsWF(e, a, e.objs[a].(vtable := BASE_VTABLE), s.live - {a});
    UnlinkKeepsWF(Put(e, a, e.objs[a].(vtable := BASE_VTABLE)).(live := s.live - {a}), a);
  }

  lemma StepKeepsWF<T>(s: State<T>, op: Op<T>)
    requires WF(s) && Enabled(s, op)
    ensures WF(Step(s, op))
  {
    match op
    case Insert(n) => LinkKeepsWF(s, n);
    case Remove(n) => UnlinkKeepsWF(s, n);
    case NewValue(v, raw, q16) => PutKeepsWF(s, v, NewScalar(raw, q16), s.live);
    case Adopt(v, image) => PutKeepsWF(s, v, image, s.live);
    case RetainOutside(v) => RetainKeepsWF(s, v);
    case ReleaseOutside(v) => RetainKeepsWF(s, v);
    case DefaultInit(a, raw) => PutKeepsWF(s, a, Constructed(raw), s.live + {a});
    case Init(a, raw, c, f, t) => InitKeepsWF(s, a, raw, c, f, t);
    case Destroy(a) => DestroyKeepsWF(s, a);
    case SetValues(a, c, f, t) =>
      ReboundKeepsWF(s, a, [Some(c), Some(f), Some(t)], Slots(s.objs[a]),
                     Some(f), Some(t), Some(c), RankOver(s, c, f, t));
      LinkKeepsWF(Rebound(s, a, [Some(c), Some(f), Some(t)], Slots(s.objs[a]),
                          Some(f), Some(t), Some(c), RankOver(s, c, f, t)), a);
    case SetCurrent(a, v) =>
      var o := s.objs[a];
      ReboundKeepsWF(s, a, [Some(v)], [o.current], o.from, o.to, Some(v), RankRaised(s, a, v));
      LinkKeepsWF(Rebound(s, a, [Some(v)], [o.current], o.from, o.to, Some(v), RankRaised(s, a, v)), a);
  }

  ghost predicate AllEnabled<T>(s: State<T>, ops: seq<Op<T>>)
    decreases |ops|
  {
    ops == [] || (Enabled(s, ops[0]) && AllEnabled(Step(s, ops[0]), ops[1..]))
  }

  ghost function Run<T>(s: State<T>, ops: seq<Op<T>>): State<T>
    requires AllEnabled(s, ops)
    decreases |ops|
  {
    if ops == [] then s else Run(Step(s, ops[0]), ops[1..])
  }

  // ---------------------------------------------------------------------------------------------
  // Reference conservation over runs
  // ---------------------------------------------------------------------------------------------

  /** From `s` to `s'` only `a` changes more than its flags: it gets these slots and this rank. */
  ghost predicate Rebinds<T>(s: State<T>, s': State<T>, a: T, slots: seq<Option<T>>, rank: u32) {
    && s'.objs.Keys == s.objs.Keys + {a}
    && (forall n :: n in s.objs && n != a ==> s'.objs[n] == s.objs[n].(flags := s'.objs[n].flags))
    && Slots(s'.objs[a]) == slots && s'.objs[a].rank == rank
  }

  lemma ReboundRebinds<T>(s: State<T>, a: T, news: seq<Option<T>>, olds: seq<Option<T>>,
                          from: Option<T>, to: Option<T>, current: Option<T>, rank: u32)
    requires a in s.objs && AllTracked(s, news) && AllTracked(s, olds)
    ensures var r := Rebound(s, a, news, olds, from, to, current, rank);
            Rebinds(s, Link(r, a), a, [current, from, to], rank) && Link(r, a).live == s.live
  {
    ExchangeCountsOnly(Unlink(s, a), news, olds);
  }

  lemma InitRebinds<T>(s: State<T>, a: T, raw: Obj<T>, c: T, f: T, t: T)
    requires Enabled(s, Init(a, raw, c, f, t))
    ensures Rebinds(s, Initialized(s, a, raw, c, f, t), a, [Some(c), Some(f), Some(t)], RankOver(s, c, f, t))
    ensures Initialized(s, a, raw, c, f, t).live == s.live + {a}
  {
    var p := Put(s, a, Constructed(raw));
    ReboundRebinds(p, a, [Some(c), Some(f), Some(t)], [None, None, None], Some(f), Some(t), Some(c), RankOver(s, c, f, t));
  }

  lemma SetValuesRebinds<T>(s: State<T>, a: T, c: T, f: T, t: T)
    requires Enabled(s, SetValues(a, c, f, t))
    ensures Rebinds(s, ValuesSet(s, a, c, f, t), a, [Some(c), Some(f), Some(t)], RankOver(s, c, f, t))
    ensures ValuesSet(s, a, c, f, t).live == s.live
  {
    ReboundRebinds(s, a, [Some(c), Some(f), Some(t)], Slots(s.objs[a]), Some(f), Some(t), Some(c), RankOver(s, c, f, t));
  }

  lemma SetCurrentRebinds<T>(s: State<T>, a: T, v: T)
    requires Enabled(s, SetCurrent(a, v))
    ensures Rebinds(s, CurrentSet(s, a, v), a, [Some(v), s.objs[a].from, s.objs[a].to], RankRaised(s, a, v))
    ensures CurrentSet(s, a, v).live == s.live
  {
    var o := s.objs[a];
    ReboundRebinds(s, a, [Some(v)], [o.current], o.from, o.to, Some(v), RankRaised(s, a, v));
  }

  lemma DestroyRebinds<T>(s: State<T>, a: T)
    requires Enabled(s, Destroy(a))
    ensures Rebinds(s, Destroyed(s, a), a, Slots(s.objs[a]), s.objs[a].rank)
    ensures Destroyed(s, a).live == s.live - {a}
  {
    ExchangeCountsOnly(s, [], Slots(s.objs[a]));
  }

  /** A rebind moves the owned slots by the difference at `a`. */
  lemma RebindOwned<T>(s: State<T>, s': State<T>, a: T, slots: seq<Option<T>>, rank: u32, v: T)
    requires s.live <= s.objs.Keys && Rebinds(s, s', a, slots, rank)
    ensures a in s.live ==>
              Owned(s'.objs, s.live, v) ==
              Owned(s.objs, s.live, v) - Occurrences(Slots(s.objs[a]), Some(v)) + Occurrences(slots, Some(v))
    ensures a in s.live ==>
              Owned(s'.objs, s.live - {a}, v) ==
              Owned(s.objs, s.live, v) - Occurrences(Slots(s.objs[a]), Some(v))
    ensures a !in s.live ==>
              Owned(s'.objs, s.live + {a}, v) ==
              Owned(s.objs, s.live, v) + Occurrences(slots, Some(v))
  {
    OwnedSame(s.objs, s'.objs, s.live - {a}, v);
    OwnedPick(s'.objs, s.live + {a}, v, a);
    if a in s.live {
      OwnedPick(s.objs, s.live, v, a);
      assert s.live + {a} == s.live;
    } else {
      assert s.live + {a} - {a} == s.live - {a} == s.live;
    }
  }

  /** The references to `v` held outside the slots of live animations, modulo the count width. */
  ghost function External<T>(s: State<T>, v: T): int
    requires s.live <= s.objs.Keys && v in s.objs
  {
    (s.objs[v].flags.count - Owned(s.objs, s.live, v)) % TWO_30
  }

  /** What an operation by other owners adds to the references held outside. */
  ghost function Outside<T>(op: Op<T>, v: T): int {
    if op == RetainOutside(v) then 1 else if op == ReleaseOutside(v) then -1 else 0
  }

  /** The ledger of the other owners over a run. */
  ghost function Ledger<T>(ops: seq<Op<T>>, v: T): int {
    if ops == [] then 0 else Outside(ops[0], v) + Ledger(ops[1..], v)
  }

  /** The references held outside moved by `e`. */
  ghost predicate Conserved<T>(s: State<T>, s': State<T>, v: T, e: int)
    requires s.live <= s.objs.Keys && v in s.objs
  {
    && s'.live <= s'.objs.Keys && v in s'.objs
    && s'.objs[v].flags.counted == s.objs[v].flags.counted
    && if s.objs[v].flags.counted then External(s', v) == (External(s, v) + e) % TWO_30
       else s'.objs[v].flags.count == s.objs[v].flags.count
  }

  /** From `s` to `s'` the live slots holding `v` move by `d`, and its count by `d` and `e` more. */
  ghost predicate Together<T>(s: State<T>, s': State<T>, v: T, d: int, e: int)
    requires s.live <= s.objs.Keys && v in s.objs
  {
    && s'.live <= s'.objs.Keys && v in s'.objs
    && CountMoves(s.objs[v].flags, s'.objs[v].flags, d + e)
    && Owned(s'.objs, s'.live, v) == Owned(s.objs, s.live, v) + d
  }

  ghost predicate MoveTogether<T>(s: State<T>, s': State<T>, v: T, e: int)
    requires s.live <= s.objs.Keys && v in s.objs
  {
    exists d :: d + e <= 3 && Together(s, s', v, d, e)
  }

  lemma Threes<X>(x: X, y: X, z: X, v: X)
    ensures Occurrences([x, y, z], v) <= 3
  {
    assert [x, y, z][1..] == [y, z] && [y, z][1..] == [z];
    assert Occurrences([z], v) <= 1;
  }

  lemma ModShift(x: int, k: int)
    ensures (x % TWO_30 + k) % TWO_30 == (x + k) % TWO_30
  {
  }

  lemma TogetherConserves<T>(s: State<T>, s': State<T>, v: T, d: int, e: int)
    requires s.live <= s.objs.Keys && v in s.objs && Together(s, s', v, d, e)
    ensures Conserved(s, s', v, e)
  {
    var count, owned := s.objs[v].flags.count, Owned(s.objs, s.live, v);
    ModShift(count + d + e, -owned - d);
    ModShift(count - owned, e);
  }

  lemma ConservedOn<T>(s: State<T>, s1: State<T>, s2: State<T>, v: T, e: int, k: int, both: int)
    requires s.live <= s.objs.Keys && v in s.objs && both == e + k
    requires Conserved(s, s1, v, e) && Conserved(s1, s2, v, k)
    ensures Conserved(s, s2, v, both)
  {
    ModShift(External(s, v) + e, k);
  }

  lemma InitTogether<T>(s: State<T>, a: T, raw: Obj<T>, c: T, f: T, t: T, v: T)
    requires s.live <= s.objs.Keys && Enabled(s, Init(a, raw, c, f, t)) && v in s.objs
    ensures MoveTogether(s, Initialized(s, a, raw, c, f, t), v, 0)
  {
    InitMoves(s, a, raw, c, f, t, v);
    InitRebinds(s, a, raw, c, f, t);
    RebindOwned(s, Initialized(s, a, raw, c, f, t), a, [Some(c), Some(f), Some(t)], RankOver(s, c, f, t), v);
    Threes(Some(c), Some(f), Some(t), Some(v));
    assert Together(s, Initialized(s, a, raw, c, f, t), v, Occurrences([Some(c), Some(f), Some(t)], Some(v)), 0);
  }

  lemma DefaultInitTogether<T>(s: State<T>, a: T, raw: Obj<T>, v: T)
    requires s.live <= s.objs.Keys && a !in s.objs && v in s.objs
    ensures MoveTogether(s, DefaultInitialized(s, a, raw), v, 0)
  {
    var s' := DefaultInitialized(s, a, raw);
    RebindOwned(s, s', a, [None, None, None], raw.rank, v);
    NoOccurrences(v);
    assert Together(s, s', v, 0, 0);
  }

  lemma SetValuesMoves<T>(s: State<T>, a: T, c: T, f: T, t: T, v: T)
    requires Enabled(s, SetValues(a, c, f, t)) && v in s.objs
    ensures CountMoves(s.objs[v].flags, ValuesSet(s, a, c, f, t).objs[v].flags,
                       Occurrences([Some(c), Some(f), Some(t)], Some(v)) - Occurrences(Slots(s.objs[a]), Some(v)))
  {
    var d := Occurrences([Some(c), Some(f), Some(t)], Some(v)) - Occurrences(Slots(s.objs[a]), Some(v));
    ReboundMoves(s, a, [Some(c), Some(f), Some(t)], Slots(s.objs[a]), Some(f), Some(t), Some(c),
                 RankOver(s, c, f, t), v, d);
    LinkMoves(s.objs[v].flags, Rebound(s, a, [Some(c), Some(f), Some(t)], Slots(s.objs[a]), Some(f), Some(t), Some(c),
                                       RankOver(s, c, f, t)), a, v, d);
  }

  lemma SetValuesTogether<T>(s: State<T>, a: T, c: T, f: T, t: T, v: T)
    requires s.live <= s.objs.Keys && Enabled(s, SetValues(a, c, f, t)) && v in s.objs
    ensures MoveTogether(s, ValuesSet(s, a, c, f, t), v, 0)
  {
    SetValuesMoves(s, a, c, f, t, v);
    SetValuesRebinds(s, a, c, f, t);
    RebindOwned(s, ValuesSet(s, a, c, f, t), a, [Some(c), Some(f), Some(t)], RankOver(s, c, f, t), v);
    Threes(Some(c), Some(f), Some(t), Some(v));
    assert Together(s, ValuesSet(s, a, c, f, t), v,
        Occurrences([Some(c), Some(f), Some(t)], Some(v)) - Occurrences(Slots(s.objs[a]), Some(v)), 0);
  }

  lemma SetCurrentMoves<T>(s: State<T>, a: T, w: T, v: T)
    requires Enabled(s, SetCurrent(a, w)) && v in s.objs
    ensures CountMoves(s.objs[v].flags, CurrentSet(s, a, w).objs[v].flags,
                       Occurrences([Some(w), s.objs[a].from, s.objs[a].to], Some(v)) - Occurrences(Slots(s.objs[a]), Some(v)))
  {
    var o := s.objs[a];
    var d := Occurrences([Some(w), o.from, o.to], Some(v)) - Occurrences(Slots(o), Some(v));
    OneSlot(Some(w), o.current, o.from, o.to, Some(v));
    ReboundMoves(s, a, [Some(w)], [o.current], o.from, o.to, Some(w), RankRaised(s, a, w), v, d);
    LinkMoves(s.objs[v].flags, Rebound(s, a, [Some(w)], [o.current], o.from, o.to, Some(w), RankRaised(s, a, w)), a, v, d);
  }

  lemma OneSlot<X>(x: X, y: X, f: X, t: X, v: X)
    ensures Occurrences([x, f, t], v) - Occurrences([y, f, t], v) == Occurrences([x], v) - Occurrences([y], v)
  {
  }

  lemma SetCurrentTogether<T>(s: State<T>, a: T, w: T, v: T)
    requires s.live <= s.objs.Keys && Enabled(s, SetCurrent(a, w)) && v in s.objs
    ensures MoveTogether(s, CurrentSet(s, a, w), v, 0)
  {
    var slots := [Some(w), s.objs[a].from, s.objs[a].to];
    SetCurrentMoves(s, a, w, v);
    SetCurrentRebinds(s, a, w);
    RebindOwned(s, CurrentSet(s, a, w), a, slots, RankRaised(s, a, w), v);
    Threes(Some(w), s.objs[a].from, s.objs[a].to, Some(v));
    assert Together(s, CurrentSet(s, a, w), v, Occurrences(slots, Some(v)) - Occurrences(Slots(s.objs[a]), Some(v)), 0);
  }

  lemma DestroyTogether<T>(s: State<T>, a: T, v: T)
    requires s.live <= s.objs.Keys && Enabled(s, Destroy(a)) && v in s.objs
    ensures MoveTogether(s, Destroyed(s, a), v, 0)
  {
    DestroyMoves(s, a, v);
    DestroyRebinds(s, a);
    RebindOwned(s, Destroyed(s, a), a, Slots(s.objs[a]), s.objs[a].rank, v);
    assert Together(s, Destroyed(s, a), v, -Occurrences(Slots(s.objs[a]), Some(v)), 0);
  }

  lemma FlagsOnlyTogether<T>(s: State<T>, s': State<T>, v: T)
    requires s.live <= s.objs.Keys && s'.live == s.live && s.objs.Keys <= s'.objs.Keys && v in s.objs
    requires forall n :: n in s.objs ==> s'.objs[n] == s.objs[n].(flags := s.objs[n].flags.(linked := s'.objs[n].flags.linked))
    ensures MoveTogether(s, s', v, 0)
  {
    OwnedSame(s.objs, s'.objs, s.live, v);
    assert Together(s, s', v, 0, 0);
  }

  lemma OutsideTogether<T>(s: State<T>, s': State<T>, w: T, v: T, e: int)
    requires s.live <= s.objs.Keys && w in s.objs && v in s.objs && s'.live == s.live && -1 <= e <= 1
    requires s'.objs == s.objs[w := s.objs[w].(flags := s.objs[w].flags.Moved(e))]
    ensures MoveTogether(s, s', v, if v == w then e else 0)
  {
    OwnedSame(s.objs, s'.objs, s.live, v);
    assert Together(s, s', v, 0, if v == w then e else 0);
  }

  lemma SimpleStepTogether<T>(s: State<T>, op: Op<T>, v: T)
    requires WF(s) && Enabled(s, op) && v in s.objs
    requires !IsBinding(op)
    ensures MoveTogether(s, Step(s, op), v, Outside(op, v))
  {
    match op
    case Insert(n) => FlagsOnlyTogether(s, Link(s, n), v);
    case Remove(n) => FlagsOnlyTogether(s, Unlink(s, n), v);
    case NewValue(n, raw, q16) => FlagsOnlyTogether(s, Put(s, n, NewScalar(raw, q16)), v);
    case Adopt(n, image) => FlagsOnlyTogether(s, Put(s, n, image), v);
    case RetainOutside(w) => OutsideTogether(s, Retain(s, w), w, v, 1);
    case ReleaseOutside(w) => OutsideTogether(s, Release(s, w), w, v, -1);
  }

  ghost predicate IsBinding<T>(op: Op<T>) {
    op.Init? || op.DefaultInit? || op.SetValues? || op.SetCurrent? || op.Destroy?
  }

  lemma BindingStepTogether<T>(s: State<T>, op: Op<T>, v: T)
    requires WF(s) && Enabled(s, op) && v in s.objs
    requires IsBinding(op)
    ensures MoveTogether(s, Step(s, op), v, 0)
  {
    match op
    case Init(a, raw, c, f, t) => InitTogether(s, a, raw, c, f, t, v);
    case DefaultInit(a, raw) => DefaultInitTogether(s, a, raw, v);
    case SetValues(a, c, f, t) => SetValuesTogether(s, a, c, f, t, v);
    case SetCurrent(a, w) => SetCurrentTogether(s, a, w, v);
    case Destroy(a) => DestroyTogether(s, a, v);
  }

  /** Every operation moves counts and owned slots together, other owners' calls apart, and takes at most
      three references. */
  lemma StepTogether<T>(s: State<T>, op: Op<T>, v: T)
    requires WF(s) && Enabled(s, op) && v in s.objs
    ensures MoveTogether(s, Step(s, op), v, Outside(op, v))
  {
    if IsBinding(op) {
      assert Outside(op, v) == 0;
      BindingStepTogether(s, op, v);
    } else {
      SimpleStepTogether(s, op, v);
    }
  }

  lemma MoveTogetherConserves<T>(s: State<T>, s': State<T>, v: T, e: int)
    requires s.live <= s.objs.Keys && v in s.objs && MoveTogether(s, s', v, e)
    ensures Conserved(s, s', v, e)
  {
    var d :| d + e <= 3 && Together(s, s', v, d, e);
    TogetherConserves(s, s', v, d, e);
  }

  lemma StepConserves<T>(s: State<T>, op: Op<T>, v: T)
    requires WF(s) && Enabled(s, op) && v in s.objs
    ensures WF(Step(s, op)) && Conserved(s, Step(s, op), v, Outside(op, v))
  {
    StepKeepsWF(s, op);
    StepTogether(s, op, v);
    MoveTogetherConserves(s, Step(s, op), v, Outside(op, v));
  }

  /** Over every run, from every well-formed state and for every aliasing of slots: the wheel stays
      well-formed, a counted object's count minus the live slots holding it moves exactly as the other
      owners' retains and releases say, and an uncounted object's count never changes. */
  lemma {:induction false} RunConserves<T>(s: State<T>, ops: seq<Op<T>>, v: T)
    requires WF(s) && AllEnabled(s, ops) && v in s.objs
    ensures WF(Run(s, ops)) && Conserved(s, Run(s, ops), v, Ledger(ops, v))
    decreases |ops|
  {
    if ops != [] {
      var s' := Step(s, ops[0]);
      StepConserves(s, ops[0], v);
      RunConserves(s', ops[1..], v);
      ConservedOn(s, s', Run(s', ops[1..]), v, Outside(ops[0], v), Ledger(ops[1..], v), Ledger(ops, v));
      assert Run(s, ops) == Run(s', ops[1..]);
    }
  }
}
