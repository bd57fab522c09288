/** The bounds check that the insert does not have: exactly which operations and which runs find the bucket
    they link into, runs of low ranks that always do, and an input that does not. */
module LowRuns {
  import opened Words
  import opened WheelModel
  import opened AnimationModel
  import opened AnimationRuns
  import opened AnimationRanks

  // ---------------------------------------------------------------------------------------------
  // Which operations stay within the table
  // ---------------------------------------------------------------------------------------------

  /** A rank that an insert either has a bucket for or, past the signed test, does not link at all. */
  predicate HarmlessRank(rank: u32) {
    rank <= BUCKETS || rank > TWO_31
  }

  /** Ranked over values of at most this aux word, an animation gets such a rank. */
  predicate HarmlessHighest(aux: u32) {
    aux < BUCKETS || aux >= TWO_31
  }

  /** An animation of this rank gets such a rank when raised over this aux word. */
  predicate HarmlessRaise(rank: u32, aux: u32) {
    || rank > TWO_31
    || TWO_31 <= aux < TWO_32 - 1
    || (rank <= BUCKETS && (aux < BUCKETS || aux == TWO_32 - 1))
  }

  /** What a caller can check of the words before the call. */
  predicate StaysInTable<T>(s: State<T>, op: Op<T>)
    requires Addressed(s, op)
  {
    match op
    case Insert(n) => s.objs[n].flags.linked || HarmlessRank(s.objs[n].rank)
    case Init(_, _, c, f, t) => HarmlessHighest(Max(s.objs[c].rank, Max(s.objs[f].rank, s.objs[t].rank)))
    case SetValues(_, c, f, t) => HarmlessHighest(Max(s.objs[c].rank, Max(s.objs[f].rank, s.objs[t].rank)))
    case SetCurrent(a, v) => HarmlessRaise(s.objs[a].rank, s.objs[v].rank)
    case _ => true
  }

  lemma InsertableExactlyWhen(rank: u32)
    ensures Insertable(rank) <==> HarmlessRank(rank)
  {
  }

  lemma HighestExactlyWhen(c: u32, f: u32, t: u32)
    ensures Insertable(Wrap(Highest(f, t, c) + 1)) <==> HarmlessHighest(Max(c, Max(f, t)))
  {
    InsertableExactlyWhen(Wrap(Highest(f, t, c) + 1));
  }

  lemma RaiseExactlyWhen(rank: u32, aux: u32)
    ensures Insertable(Max(rank, Wrap(aux + 1))) <==> HarmlessRaise(rank, aux)
  {
    InsertableExactlyWhen(Max(rank, Wrap(aux + 1)));
  }

  /** The operation finds the bucket it links into, or links nothing, exactly then. */
  lemma PlaceableExactlyWhen<T>(s: State<T>, op: Op<T>)
    requires Addressed(s, op)
    ensures Placeable(s, op) <==> StaysInTable(s, op)
  {
    match op
    case Insert(n) => InsertableExactlyWhen(s.objs[n].rank);
    case Init(_, _, c, f, t) => HighestExactlyWhen(s.objs[c].rank, s.objs[f].rank, s.objs[t].rank);
    case SetValues(_, c, f, t) => HighestExactlyWhen(s.objs[c].rank, s.objs[f].rank, s.objs[t].rank);
    case SetCurrent(a, v) => RaiseExactlyWhen(s.objs[a].rank, s.objs[v].rank);
    case _ =>
  }

  /** Every step names live objects and passes that check; nothing is assumed of buckets. */
  ghost predicate RunStaysInTable<T>(s: State<T>, ops: seq<Op<T>>)
    decreases |ops|
  {
    ops != [] ==>
      && Addressed(s, ops[0]) && StaysInTable(s, ops[0])
      && (Placeable(s, ops[0]) ==> RunStaysInTable(Step(s, ops[0]), ops[1..]))
  }

  /** The runs that never write past the heads are exactly those. */
  lemma {:induction false} RunIsEnabledExactlyWhen<T>(s: State<T>, ops: seq<Op<T>>)
    ensures AllEnabled(s, ops) <==> RunStaysInTable(s, ops)
    decreases |ops|
  {
    if ops != [] && Addressed(s, ops[0]) {
      PlaceableExactlyWhen(s, ops[0]);
      if Placeable(s, ops[0]) {
        RunIsEnabledExactlyWhen(Step(s, ops[0]), ops[1..]);
      }
    }
  }

  // ---------------------------------------------------------------------------------------------
  // Low ranks
  // ---------------------------------------------------------------------------------------------

  ghost predicate Low<T>(s: State<T>) {
    forall n :: n in s.objs ==> s.objs[n].rank <= BUCKETS
  }

  /** The operation binds values with an aux word of at most 11, and brings in no rank above 12: neither
      with an object from elsewhere nor with the storage that a default construction leaves as it is. */
  ghost predicate LowOp<T>(s: State<T>, op: Op<T>)
    requires Addressed(s, op)
  {
    match op
    case Adopt(v, image) => image.rank <= BUCKETS
    case DefaultInit(a, raw) => raw.rank <= BUCKETS
    case Init(a, raw, c, f, t) => s.objs[c].rank < BUCKETS && s.objs[f].rank < BUCKETS && s.objs[t].rank < BUCKETS
    case SetValues(a, c, f, t) => s.objs[c].rank < BUCKETS && s.objs[f].rank < BUCKETS && s.objs[t].rank < BUCKETS
    case SetCurrent(a, v) => s.objs[v].rank < BUCKETS
    case _ => true
  }

  lemma LowHighest(x: u32, y: u32, z: u32)
    requires x < BUCKETS && y < BUCKETS && z < BUCKETS
    ensures Wrap(Highest(x, y, z) + 1) <= BUCKETS
  {
  }

  lemma LowRankOver<T>(s: State<T>, c: T, f: T, t: T)
    requires c in s.objs && f in s.objs && t in s.objs
    requires s.objs[c].rank < BUCKETS && s.objs[f].rank < BUCKETS && s.objs[t].rank < BUCKETS
    ensures RankOver(s, c, f, t) <= BUCKETS
  {
    LowHighest(s.objs[f].rank, s.objs[t].rank, s.objs[c].rank);
  }

  lemma LowRaised(rank: u32, aux: u32)
    requires rank <= BUCKETS && aux < BUCKETS
    ensures Max(rank, Wrap(aux + 1)) <= BUCKETS
  {
  }

  lemma LowIsPlaceable<T>(s: State<T>, op: Op<T>)
    requires Low(s) && Addressed(s, op) && LowOp(s, op)
    ensures Enabled(s, op)
  {
    PlaceableExactlyWhen(s, op);
  }

  lemma RebindKeepsLow<T>(s: State<T>, s': State<T>, a: T, slots: seq<Option<T>>, rank: u32)
    requires Low(s) && Rebinds(s, s', a, slots, rank) && rank <= BUCKETS
    ensures Low(s')
  {
  }

  lemma InitKeepsLow<T>(s: State<T>, a: T, raw: Obj<T>, c: T, f: T, t: T)
    requires Low(s) && Enabled(s, Init(a, raw, c, f, t)) && LowOp(s, Init(a, raw, c, f, t))
    ensures Low(Initialized(s, a, raw, c, f, t))
  {
    LowRankOver(s, c, f, t);
    InitRebinds(s, a, raw, c, f, t);
    RebindKeepsLow(s, Initialized(s, a, raw, c, f, t), a, [Some(c), Some(f), Some(t)], RankOver(s, c, f, t));
  }

  lemma SetValuesKeepsLow<T>(s: State<T>, a: T, c: T, f: T, t: T)
    requires Low(s) && Enabled(s, SetValues(a, c, f, t)) && LowOp(s, SetValues(a, c, f, t))
    ensures Low(ValuesSet(s, a, c, f, t))
  {
    LowRankOver(s, c, f, t);
    SetValuesRebinds(s, a, c, f, t);
    RebindKeepsLow(s, ValuesSet(s, a, c, f, t), a, [Some(c), Some(f), Some(t)], RankOver(s, c, f, t));
  }

  lemma SetCurrentKeepsLow<T>(s: State<T>, a: T, v: T)
    requires Low(s) && Enabled(s, SetCurrent(a, v)) && LowOp(s, SetCurrent(a, v))
    ensures Low(CurrentSet(s, a, v))
  {
    LowRaised(s.objs[a].rank, s.objs[v].rank);
    SetCurrentRebinds(s, a, v);
    RebindKeepsLow(s, CurrentSet(s, a, v), a, [Some(v), s.objs[a].from, s.objs[a].to], RankRaised(s, a, v));
  }

  lemma DestroyKeepsLow<T>(s: State<T>, a: T)
    requires Low(s) && Enabled(s, Destroy(a))
    ensures Low(Destroyed(s, a))
  {
    DestroyRebinds(s, a);
    RebindKeepsLow(s, Destroyed(s, a), a, Slots(s.objs[a]), s.objs[a].rank);
  }

  lemma StepKeepsLow<T>(s: State<T>, op: Op<T>)
    requires Low(s) && Enabled(s, op) && LowOp(s, op)
    ensures Low(Step(s, op))
  {
    match op
    case Init(a, raw, c, f, t) => InitKeepsLow(s, a, raw, c, f, t);
    case SetValues(a, c, f, t) => SetValuesKeepsLow(s, a, c, f, t);
    case SetCurrent(a, v) => SetCurrentKeepsLow(s, a, v);
    case Destroy(a) => DestroyKeepsLow(s, a);
    case _ =>
  }

  /** Every step names live objects and brings in low ranks only; nothing is assumed of buckets. */
  ghost predicate LowRun<T>(s: State<T>, ops: seq<Op<T>>)
    decreases |ops|
  {
    ops != [] ==>
      && Addressed(s, ops[0]) && LowOp(s, ops[0])
      && (Placeable(s, ops[0]) ==> LowRun(Step(s, ops[0]), ops[1..]))
  }

  /** From low ranks every low run places every node in the table: the bucket an insert writes to always
      exists, so all that is said of enabled runs holds of it. */
  lemma {:induction false} LowRunIsEnabled<T>(s: State<T>, ops: seq<Op<T>>)
    requires Low(s) && LowRun(s, ops)
    ensures AllEnabled(s, ops) && Low(Run(s, ops))
    decreases |ops|
  {
    if ops != [] {
      LowIsPlaceable(s, ops[0]);
      StepKeepsLow(s, ops[0]);
      LowRunIsEnabled(Step(s, ops[0]), ops[1..]);
    }
  }

  /** The empty wheel is low. */
  lemma EmptyIsLow<T>(s: State<T>)
    requires s.objs == map[]
    ensures Low(s)
  {
  }

  // ---------------------------------------------------------------------------------------------
  // Stale ranks
  // ---------------------------------------------------------------------------------------------

  /** A default construction leaves the word it finds as the rank. Whatever that word and the value bound
      next, the bind stays within the table exactly when the two words pass the check, and otherwise links
      the node into a word past the heads. */
  lemma StaleRankExactlyWhen<T>(s: State<T>, a: T, raw: Obj<T>, v: T)
    requires a !in s.objs && v in s.objs
    ensures Enabled(s, DefaultInit(a, raw))
    ensures var s' := Step(s, DefaultInit(a, raw));
            && Addressed(s', SetCurrent(a, v))
            && (Placeable(s', SetCurrent(a, v)) <==> HarmlessRaise(raw.rank, s.objs[v].rank))
            && (!Placeable(s', SetCurrent(a, v)) ==>
                  BUCKETS <= Bucket(RankRaised(s', a, v)) < TWO_31)
  {
    RaiseExactlyWhen(raw.rank, s.objs[v].rank);
    assert RankRaised(Step(s, DefaultInit(a, raw)), a, v) == Max(raw.rank, Wrap(s.objs[v].rank + 1));
  }

  /** Over storage that held 13 it is the guard word. */
  lemma StaleRankLeavesTheTable<T>(s: State<T>, a: T, raw: Obj<T>, v: T)
    requires a !in s.objs && v in s.objs && raw.rank == 13 && s.objs[v].rank <= 12
    ensures Enabled(s, DefaultInit(a, raw))
    ensures var s' := Step(s, DefaultInit(a, raw));
            && Addressed(s', SetCurrent(a, v)) && !Placeable(s', SetCurrent(a, v))
            && Bucket(RankRaised(s', a, v)) == BUCKETS
  {
    StaleRankExactlyWhen(s, a, raw, v);
  }
}
