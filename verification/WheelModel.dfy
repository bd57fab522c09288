/** The simple form of the timing wheel and its refcounted objects: twelve sequences of nodes and
    one record per object. The class form in TimingWheel.dfy, with its prev/next words, refines it;
    the statements about whole runs are proved here. */
module WheelModel {
  import opened Words

  const BUCKETS := 12
  const BASE_VTABLE: u32 := 0x0898_4ca0
  const ANIMATION_VTABLE: u32 := 0x0898_7f00
  const FIXED_VALUE_VTABLE: u32 := 0x0898_6998

  // ---------------------------------------------------------------------------------------------
  // The flags word at +0x14
  // ---------------------------------------------------------------------------------------------

  type count30 = c: int | 0 <= c < 0x4000_0000

  /** Bit 0 linked, bit 1 counted, the reference count in bits 2 and up. */
  datatype Flags = Flags(linked: bool, counted: bool, count: count30) {
    function Word(): u32 {
      (if linked then 1 else 0) + (if counted then 2 else 0) + 4 * count
    }

    /** `retain_value` for d = 1 and `release_refcounted_value` for d = -1, gated by bit 1. */
    function Moved(d: int): Flags {
      if counted then this.(count := (count + d) % TWO_30) else this
    }
  }

  function FlagsOf(word: u32): Flags {
    Flags(word % 2 == 1, word / 2 % 2 == 1, word / 4)
  }

  /** The three fields lose nothing of the word, and each bit operation on a field is the word operation
      of the source: `flags & 1`, `flags |= 1`, `flags &= !1`, and the drain test `flags & !3 == 0`. */
  lemma FlagsWord(f: Flags, word: u32)
    ensures FlagsOf(f.Word()) == f && FlagsOf(word).Word() == word
    ensures f.linked <==> f.Word() % 2 == 1
    ensures f.(linked := true).Word() == f.Word() - f.Word() % 2 + 1
    ensures f.(linked := false).Word() == f.Word() - f.Word() % 2
    ensures f.count == 0 <==> f.Word() - f.Word() % 4 == 0
  {
  }

  /** A step of the count is the source's wrapping step of four, which leaves both low bits alone. */
  lemma FlagsStep(f: Flags)
    requires f.counted
    ensures f.Moved(1).Word() == Wrap(f.Word() + 4) && f.Moved(-1).Word() == Wrap(f.Word() - 4)
  {
    assert f.count < TWO_30 - 1 ==> f.Moved(1).count == f.count + 1;
    assert f.count > 0 ==> f.Moved(-1).count == f.count - 1;
  }

  // ---------------------------------------------------------------------------------------------
  // State
  // ---------------------------------------------------------------------------------------------

  /** One object. A plain value is the six-word prefix; an animation also uses the three slots. The
      word at +0x08 is a value's aux word and a wheel node's rank. */
  datatype Obj<T> = Obj(
    vtable: u32,
    word04: u32,
    rank: u32,
    flags: Flags,
    from: Option<T>,
    to: Option<T>,
    current: Option<T>)

  /** `live` holds the animations that own their slots: constructed and not yet destroyed. `drained`
      collects every object each time its count reaches zero in a release. */
  datatype State<T> = State(
    buckets: seq<seq<T>>,
    objs: map<T, Obj<T>>,
    live: set<T>,
    drained: multiset<T>)

  ghost predicate Distinct<T>(xs: seq<T>) {
    forall i, j :: 0 <= i < j < |xs| ==> xs[i] != xs[j]
  }

  /** Twelve duplicate-free buckets; a node of bucket b has rank b+1 and its linked bit set, and an
      object with its linked bit set sits in the bucket of its rank. */
  ghost predicate WheelOk<T>(buckets: seq<seq<T>>, objs: map<T, Obj<T>>) {
    && |buckets| == BUCKETS
    && (forall b :: 0 <= b < BUCKETS ==> Distinct(buckets[b]))
    && (forall b, n :: 0 <= b < BUCKETS && n in buckets[b] ==>
          n in objs && objs[n].rank == b + 1 && objs[n].flags.linked)
    && (forall n :: n in objs && objs[n].flags.linked ==>
          1 <= objs[n].rank <= BUCKETS && n in buckets[objs[n].rank - 1])
  }

  ghost predicate SlotOk<T>(objs: map<T, Obj<T>>, slot: Option<T>) {
    slot.Some? ==> slot.value in objs
  }

  ghost predicate SlotsOk<T>(objs: map<T, Obj<T>>, a: T)
    requires a in objs
  {
    SlotOk(objs, objs[a].from) && SlotOk(objs, objs[a].to) && SlotOk(objs, objs[a].current)
  }

  ghost predicate WF<T>(s: State<T>) {
    && WheelOk(s.buckets, s.objs)
    && s.live <= s.objs.Keys
    && (forall a :: a in s.live ==> SlotsOk(s.objs, a))
  }

  // ---------------------------------------------------------------------------------------------
  // Wheel steps
  // ---------------------------------------------------------------------------------------------

  ghost function Delete<T>(xs: seq<T>, x: T): seq<T> {
    if x !in xs then xs
    else
      var i :| 0 <= i < |xs| && xs[i] == x;
      xs[..i] + xs[i + 1..]
  }

  lemma DeleteAt<T>(xs: seq<T>, i: nat)
    requires i < |xs| && Distinct(xs)
    ensures Delete(xs, xs[i]) == xs[..i] + xs[i + 1..]
  {
  }

  lemma DeleteMembers<T>(xs: seq<T>, x: T)
    requires Distinct(xs) && x in xs
    ensures Distinct(Delete(xs, x))
    ensures forall y :: y in Delete(xs, x) ==> y in xs && y != x
    ensures forall y :: y in xs && y != x ==> y in Delete(xs, x)
  {
    var i :| 0 <= i < |xs| && xs[i] == x && Delete(xs, x) == xs[..i] + xs[i + 1..];
    forall y | y in xs && y != x
      ensures y in Delete(xs, x)
    {
      var j :| 0 <= j < |xs| && xs[j] == y;
      assert if j < i then xs[..i][j] == y else xs[i + 1..][j - i - 1] == y;
    }
  }

  /** The bucket word `rank.wrapping_sub(1)`. */
  function Bucket(rank: u32): u32 {
    Wrap(rank - 1)
  }

  /** What the unguarded insert relies on: unless it returns early, the bucket exists. */
  ghost predicate Insertable(rank: u32) {
    Signed(Bucket(rank)) < 0 || Bucket(rank) < BUCKETS
  }

  /** Prepend to the bucket of the rank, or no change when the bucket word is negative or the node is
      linked. (A bucket past the table, which Insertable excludes, is no change here either.) */
  ghost function Link<T>(s: State<T>, n: T): State<T>
    requires n in s.objs
  {
    var o := s.objs[n];
    var b := Bucket(o.rank);
    if Signed(b) < 0 || o.flags.linked || b >= |s.buckets| then s
    else s.(buckets := s.buckets[b := [n] + s.buckets[b]],
            objs := s.objs[n := o.(flags := o.flags.(linked := true))])
  }

  /** Delete from the bucket of the rank and keep the order of the rest, or no change when the node is
      not linked. (A linked node always has its bucket, by WF.) */
  ghost function Unlink<T>(s: State<T>, n: T): State<T>
    requires n in s.objs
  {
    var o := s.objs[n];
    var b := Bucket(o.rank);
    if !o.flags.linked || b >= |s.buckets| then s
    else s.(buckets := s.buckets[b := Delete(s.buckets[b], n)],
            objs := s.objs[n := o.(flags := o.flags.(linked := false))])
  }

  /** New wheel, same slots. */
  lemma WheelKeepsWF<T>(s: State<T>, s': State<T>, n: T)
    requires WF(s) && n in s.objs && s'.live == s.live && WheelOk(s'.buckets, s'.objs)
    requires n in s'.objs && s'.objs == s.objs[n := s.objs[n].(flags := s'.objs[n].flags)]
    ensures WF(s')
  {
  }

  lemma LinkKeepsWF<T>(s: State<T>, n: T)
    requires WF(s) && n in s.objs
    requires s.objs[n].flags.linked || Insertable(s.objs[n].rank)
    ensures WF(Link(s, n))
  {
    var o := s.objs[n];
    var b := Bucket(o.rank);
    if Signed(b) >= 0 && !o.flags.linked {
      InsertionKeepsWheel(s.buckets, s.objs, n, b);
      WheelKeepsWF(s, Link(s, n), n);
    }
  }

  lemma InsertionKeepsWheel<T>(buckets: seq<seq<T>>, objs: map<T, Obj<T>>, n: T, b: nat)
    requires WheelOk(buckets, objs) && n in objs && !objs[n].flags.linked && b < BUCKETS && objs[n].rank == b + 1
    ensures WheelOk(buckets[b := [n] + buckets[b]], objs[n := objs[n].(flags := objs[n].flags.(linked := true))])
  {
    var buckets' := buckets[b := [n] + buckets[b]];
    var objs' := objs[n := objs[n].(flags := objs[n].flags.(linked := true))];
    assert n !in buckets[b];
    assert buckets'[b][0] == n && buckets'[b][1..] == buckets[b];
    assert Distinct(buckets'[b]);
    forall c, m | 0 <= c < BUCKETS && m in buckets'[c]
      ensures m in objs' && objs'[m].rank == c + 1 && objs'[m].flags.linked
    {
      assert m == n || m in buckets[c];
    }
    forall m | m in objs' && objs'[m].flags.linked
      ensures 1 <= objs'[m].rank <= BUCKETS && m in buckets'[objs'[m].rank - 1]
    {
      if m != n {
        assert m in buckets[objs[m].rank - 1];
      }
    }
  }

  lemma UnlinkKeepsWF<T>(s: State<T>, n: T)
    requires WF(s) && n in s.objs
    ensures WF(Unlink(s, n)) && !Unlink(s, n).objs[n].flags.linked
  {
    var o := s.objs[n];
    if o.flags.linked {
      var rest := Delete(s.buckets[o.rank - 1], n);
      DeleteMembers(s.buckets[o.rank - 1], n);
      RemovalKeepsWheel(s.buckets, s.objs, n, rest);
      UnlinkedIs(s, n);
      WheelKeepsWF(s, Unlink(s, n), n);
    }
  }

  lemma UnlinkedIs<T>(s: State<T>, n: T)
    requires n in s.objs && s.objs[n].flags.linked && |s.buckets| == BUCKETS && 1 <= s.objs[n].rank <= BUCKETS
    ensures var o, b := s.objs[n], s.objs[n].rank - 1;
            Unlink(s, n) == s.(buckets := s.buckets[b := Delete(s.buckets[b], n)],
                               objs := s.objs[n := o.(flags := o.flags.(linked := false))])
  {
    assert Bucket(s.objs[n].rank) == s.objs[n].rank - 1;
  }

  /** Unlinking, written out for a node at a known place. */
  lemma UnlinkAt<T>(s: State<T>, n: T, i: nat)
    requires WF(s) && n in s.objs && s.objs[n].flags.linked
    requires i < |s.buckets[s.objs[n].rank - 1]| && s.buckets[s.objs[n].rank - 1][i] == n
    ensures var o, b := s.objs[n], s.objs[n].rank - 1;
            Unlink(s, n) == State(s.buckets[b := s.buckets[b][..i] + s.buckets[b][i + 1..]],
                                  s.objs[n := o.(flags := o.flags.(linked := false))], s.live, s.drained)
    ensures WF(Unlink(s, n))
  {
    DeleteAt(s.buckets[s.objs[n].rank - 1], i);
    UnlinkKeepsWF(s, n);
  }

  lemma RemovalKeepsWheel<T>(buckets: seq<seq<T>>, objs: map<T, Obj<T>>, n: T, rest: seq<T>)
    requires WheelOk(buckets, objs) && n in objs && objs[n].flags.linked
    requires Distinct(rest)
    requires forall y :: y in rest ==> y in buckets[objs[n].rank - 1] && y != n
    requires forall y :: y in buckets[objs[n].rank - 1] && y != n ==> y in rest
    ensures WheelOk(buckets[objs[n].rank - 1 := rest], objs[n := objs[n].(flags := objs[n].flags.(linked := false))])
  {
    var buckets' := buckets[objs[n].rank - 1 := rest];
    var objs' := objs[n := objs[n].(flags := objs[n].flags.(linked := false))];
    forall b, m | 0 <= b < BUCKETS && m in buckets'[b]
      ensures m in objs' && objs'[m].rank == b + 1 && objs'[m].flags.linked
    {
      if b == objs[n].rank - 1 {
        assert m in rest;
      } else {
        assert m in buckets[b];
      }
    }
  }

  /** Inserting an unlinked node and removing it again restores the whole state. */
  lemma LinkThenUnlink<T>(s: State<T>, n: T)
    requires WF(s) && n in s.objs && !s.objs[n].flags.linked && Insertable(s.objs[n].rank)
    ensures WF(Link(s, n))
    ensures Unlink(Link(s, n), n) == s
  {
    LinkKeepsWF(s, n);
    var b := Bucket(s.objs[n].rank);
    if Signed(b) >= 0 {
      DeleteAt([n] + s.buckets[b], 0);
      var r := Unlink(Link(s, n), n);
      assert r.objs == s.objs;
      assert r.buckets[b] == s.buckets[b];
      assert r.buckets == s.buckets;
    }
  }

  /** Removing a linked node and inserting it again moves it to the head of its bucket and keeps the
      order of every other node. */
  lemma UnlinkThenLink<T>(s: State<T>, n: T)
    requires WF(s) && n in s.objs && s.objs[n].flags.linked
    ensures WF(Unlink(s, n)) && Insertable(s.objs[n].rank)
    ensures var b := s.objs[n].rank - 1;
            Link(Unlink(s, n), n) == s.(buckets := s.buckets[b := [n] + Delete(s.buckets[b], n)])
  {
    UnlinkKeepsWF(s, n);
    assert Link(Unlink(s, n), n).objs == s.objs;
  }
}
