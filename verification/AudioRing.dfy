/** The audio buffer ring: records and control words in one array of machine words, released and acquired
    in place. Record offsets wrap like the target's, and nothing validates an index. */
module AudioRing {
  import opened Words

  const INDEX := 205 // 0x334 / 4
  const LAST := 206 // 0x338 / 4
  const FULL: u32 := 0x80000

  /** Word positions of a record's length and address. */
  function LengthWord(index: u32): nat {
    Wrap(Wrap(index * 12) + 0x38) / 4
  }

  function AddressWord(index: u32): nat {
    Wrap(Wrap(index * 12) + 0x30) / 4
  }

  lemma WordsOfSmallIndex(index: u32)
    requires index <= 64
    ensures LengthWord(index) == 14 + 3 * index && AddressWord(index) == 12 + 3 * index
  {
    WrapOnce(index * 12);
    WrapOnce(index * 12 + 0x38);
    WrapOnce(index * 12 + 0x30);
    assert index * 12 + 0x38 == 4 * (14 + 3 * index) && index * 12 + 0x30 == 4 * (12 + 3 * index);
  }

  predicate Holds(w: seq<u32>) {
    |w| > LAST
  }

  /** The record that a release or an acquire selects lies in memory. */
  predicate LengthFits(w: seq<u32>)
    requires Holds(w)
  {
    LengthWord(w[INDEX]) < |w|
  }

  // ---------------------------------------------------------------------------------------------
  // Release
  // ---------------------------------------------------------------------------------------------

  /** The current record's length is cleared, then the index, as found after that store, moves on. */
  function Released(w: seq<u32>): (r: seq<u32>)
    requires Holds(w) && LengthFits(w)
    ensures |r| == |w|
  {
    var cleared := w[LengthWord(w[INDEX]) := 0];
    var next := Wrap(cleared[INDEX] + 1);
    var moved := cleared[INDEX := next];
    if next > moved[LAST] then moved[INDEX := 0] else moved
  }

  /** `audio_buffer_ring_release` */
  method Release(ring: array<u32>)
    requires Holds(ring[..]) && LengthFits(ring[..])
    modifies ring
    ensures ring[..] == Released(old(ring[..]))
  {
    ring[LengthWord(ring[INDEX])] := 0;
    var reloaded: int := ring[INDEX];
    var next := Wrap(reloaded + 1);
    ring[INDEX] := next;
    if next > ring[LAST] {
      ring[INDEX] := 0;
    }
  }

  /** What a release writes in any ring, where no control word is the length it clears: that length, at byte
      12 * index + 0x38 modulo 2^32, becomes zero; the index steps, wrapping at the top of the word and past
      the last index; and no other word changes. */
  lemma ReleaseEffect(w: seq<u32>)
    requires Holds(w) && LengthFits(w) && LengthWord(w[INDEX]) != INDEX && LengthWord(w[INDEX]) != LAST
    ensures var at := (w[205] as int * 12 + 0x38) % 0x1_0000_0000 / 4;
            var next := if w[205] == 0xffff_ffff then 0 else w[205] + 1;
            at < |w| && Released(w) == w[at := 0][205 := if next > w[206] then 0 else next]
  {
    WrapSum(w[INDEX] as int * 12, 0x38);
  }

  /** Whatever the ring held, after one release the index is at most the last index. */
  lemma OneReleaseBringsIndexIn(w: seq<u32>)
    requires Holds(w) && LengthFits(w)
    ensures Released(w)[INDEX] <= Released(w)[LAST]
  {
  }

  /** A ring whose records all lie before the control words. */
  predicate Sound(w: seq<u32>) {
    Holds(w) && w[LAST] <= 63 && w[INDEX] <= w[LAST]
  }

  lemma SoundStep(w: seq<u32>)
    requires Sound(w)
    ensures LengthFits(w) && LengthWord(w[INDEX]) == 14 + 3 * w[INDEX] < INDEX
    ensures Sound(Released(w))
    ensures Released(w) == w[14 + 3 * w[INDEX] := 0][INDEX := (w[INDEX] + 1) % (w[LAST] + 1)]
  {
    WordsOfSmallIndex(w[INDEX]);
    NextIndex(w[INDEX], w[LAST]);
  }

  lemma NextIndex(index: nat, last: nat)
    requires index <= last
    ensures (index + 1) % (last + 1) == if index == last then 0 else index + 1
  {
    if index < last {
      SmallMod(index + 1, last + 1);
    }
  }

  lemma SmallMod(x: nat, n: nat)
    requires x < n
    ensures x % n == x
  {
  }

  /** k releases in a row. One whose record is outside memory, which the source leaves to its caller, is
      counted as no change. */
  ghost function Releases(w: seq<u32>, k: nat): seq<u32> {
    if k == 0 then w
    else
      var b := Releases(w, k - 1);
      if Holds(b) && LengthFits(b) then Released(b) else b
  }

  /** Position `at` of `n` after `k` steps, unrolled: moving one more step is moving from the position. */
  lemma ModStep(at: nat, k: nat, n: nat)
    requires n > 0
    ensures ((at + k) % n + 1) % n == (at + k + 1) % n
  {
    var x := at + k;
    var q, r := x / n, x % n;
    DivMod(x, n);
    if r + 1 < n {
      ModIs(x + 1, n, q, r + 1);
      ModIs(r + 1, n, 0, r + 1);
    } else {
      assert n * (q + 1) == n * q + n;
      ModIs(x + 1, n, q + 1, 0);
      ModIs(r + 1, n, 1, 0);
    }
  }

  lemma ModIs(x: nat, n: nat, q: nat, r: nat)
    requires n > 0 && r < n && x == n * q + r
    ensures x % n == r
  {
    MulBelow(n, x / n, q);
    MulBelow(n, q, x / n);
  }

  /** Record `r` was cleared in one of the first `k` releases. */
  ghost predicate Passed(w: seq<u32>, k: nat, r: nat)
    requires Sound(w)
  {
    exists m: nat :: m < k && Rotated(w, m) == r
  }

  ghost function Rotated(w: seq<u32>, m: nat): nat
    requires Holds(w)
  {
    (w[INDEX] as int + m) % (w[LAST] as int + 1)
  }

  /** After k releases the index has rotated by k, the lengths of the records passed are zero, and every
      other word, the last index among them, is what it was. */
  lemma {:induction false} Rotation(w: seq<u32>, k: nat)
    requires Sound(w)
    ensures var r := Releases(w, k);
            && Sound(r) && |r| == |w|
            && r[INDEX] == Rotated(w, k) && r[LAST] == w[LAST]
            && (forall i :: 0 <= i <= w[LAST] ==> r[14 + 3 * i] == if Passed(w, k, i) then 0 else w[14 + 3 * i])
            && (forall j :: 0 <= j < |w| && j != INDEX && !IsLength(w, j) ==> r[j] == w[j])
  {
    if k == 0 {
      SmallMod(w[INDEX], w[LAST] + 1);
    } else {
      var b := Releases(w, k - 1);
      Rotation(w, k - 1);
      SoundStep(b);
      OneMoreRotated(w, k);
      assert Releases(w, k)[INDEX] == Rotated(w, k);
      forall i | 0 <= i <= w[LAST]
        ensures Passed(w, k, i) <==> Passed(w, k - 1, i) || i == b[INDEX]
      {
        OneMorePassed(w, k, i);
      }
    }
  }

  lemma OneMoreRotated(w: seq<u32>, k: nat)
    requires Holds(w) && k > 0
    ensures (Rotated(w, k - 1) + 1) % (w[LAST] as int + 1) == Rotated(w, k)
  {
    ModStep(w[INDEX], k - 1, w[LAST] as int + 1);
  }

  lemma OneMorePassed(w: seq<u32>, k: nat, i: nat)
    requires Sound(w) && k > 0
    ensures Passed(w, k, i) <==> Passed(w, k - 1, i) || i == Rotated(w, k - 1)
  {
  }

  ghost predicate IsLength(w: seq<u32>, j: nat)
    requires Sound(w)
  {
    exists i :: 0 <= i <= w[LAST] && j == 14 + 3 * i
  }

  /** One release per record empties the whole ring and comes back to the first one. */
  lemma FullTurn(w: seq<u32>)
    requires Sound(w)
    ensures var r := Releases(w, w[LAST] + 1);
            && |r| == |w| && Sound(r) && r[INDEX] == w[INDEX]
            && (forall i :: 0 <= i <= w[LAST] ==> r[14 + 3 * i] == 0)
            && (forall j :: 0 <= j < |w| && !IsLength(w, j) ==> r[j] == w[j])
  {
    var n := w[LAST] + 1;
    var r := Releases(w, n);
    Rotation(w, n);
    ModIs(w[INDEX] + n, n, 1, w[INDEX]);
    assert r[INDEX] == w[INDEX];
    forall i | 0 <= i < n
      ensures r[14 + 3 * i] == 0
    {
      EveryRecordPasses(w, i);
    }
    forall j | 0 <= j < |w| && !IsLength(w, j)
      ensures r[j] == w[j]
    {
    }
  }

  lemma EveryRecordPasses(w: seq<u32>, i: nat)
    requires Sound(w) && i <= w[LAST]
    ensures Passed(w, w[LAST] + 1, i)
  {
    var n := w[LAST] + 1;
    var m := if i >= w[INDEX] then i - w[INDEX] else i + n - w[INDEX];
    ModIs(w[INDEX] + m, n, if i >= w[INDEX] then 0 else 1, i);
    assert Rotated(w, m) == i;
  }

  // ---------------------------------------------------------------------------------------------
  // Which rings rotate
  // ---------------------------------------------------------------------------------------------

  /** The records, of all that a word can number, whose length is a control word. */
  lemma ControlsSparedExactlyWhen(index: u32)
    ensures LengthWord(index) == LAST <==> index % TWO_30 == 64
    ensures LengthWord(index) == INDEX <==> index % TWO_30 == 357914005
  {
    var q, m := index / TWO_30, index % TWO_30;
    WrapSum(index * 12, 0x38);
    assert index * 12 + 0x38 == 12 * m + 0x38 + 3 * q * TWO_32;
    WrapMultiple(12 * m + 0x38, 3 * q);
    WordOfByte(m);
  }

  lemma WordOfByte(m: nat)
    requires m < TWO_30
    ensures Wrap(12 * m + 0x38) / 4 == LAST <==> m == 64
    ensures Wrap(12 * m + 0x38) / 4 == INDEX <==> m == 357914005
  {
    var j := (12 * m + 0x38) / TWO_32;
    assert Wrap(12 * m + 0x38) == 12 * m + 0x38 - j * TWO_32 && 0 <= j <= 3;
  }

  /** What the index becomes if the length store leaves it alone. */
  function NextOf(index: u32, last: u32): u32 {
    var next := Wrap(index as int + 1);
    if next > last then 0 else next
  }

  /** A release, in any ring whatever, keeps the last index exactly when the record is not 64 in the low
      30 bits or the last index is zero anyway, and steps the index as it should exactly when the record
      is not 357914005 in the low 30 bits or the ring has one record. */
  lemma ReleaseSparesExactlyWhen(w: seq<u32>)
    requires Holds(w) && LengthFits(w)
    ensures Released(w)[LAST] == w[LAST] <==> w[INDEX] % TWO_30 != 64 || w[LAST] == 0
    ensures w[INDEX] % TWO_30 != 64 ==>
              (Released(w)[INDEX] == NextOf(w[INDEX], w[LAST]) <==> w[INDEX] % TWO_30 != 357914005 || w[LAST] == 0)
  {
    ControlsSparedExactlyWhen(w[INDEX]);
    WrapOnce(w[INDEX] as int + 1);
  }

  /** The ring holds its last index, and its index has rotated by k. */
  ghost predicate RotatesBy(w: seq<u32>, k: nat) {
    && Holds(w)
    && var r := Releases(w, k);
       Holds(r) && r[LAST] == w[LAST] && r[INDEX] == Rotated(w, k)
  }

  /** Releases from at most record 64 keep the last index until 64 is the current record. */
  lemma {:induction false} UpToSixtyFour(w: seq<u32>, k: nat)
    requires Holds(w) && w[INDEX] + k <= 64 <= w[LAST]
    ensures var r := Releases(w, k); |r| == |w| && r[INDEX] == w[INDEX] + k && r[LAST] == w[LAST]
  {
    if k > 0 {
      UpToSixtyFour(w, k - 1);
      WordsOfSmallIndex(w[INDEX] + k - 1);
      WrapOnce(w[INDEX] + k);
    }
  }

  /** The next release writes zero over the last index and shrinks the ring to one record. */
  lemma SixtyFourthRelease(w: seq<u32>)
    requires Holds(w) && w[INDEX] <= 64 <= w[LAST]
    ensures var r := Releases(w, 64 - w[INDEX]); Holds(r) && r[INDEX] == 64 && r[LAST] == w[LAST]
    ensures var r := Releases(w, 64 - w[INDEX] + 1); Holds(r) && r[INDEX] == 0 && r[LAST] == 0
  {
    UpToSixtyFour(w, 64 - w[INDEX]);
    RecordSixtyFourIsControl(Releases(w, 64 - w[INDEX]));
  }

  lemma RecordSixtyFourIsControl(w: seq<u32>)
    requires Holds(w) && w[INDEX] == 64
    ensures LengthWord(64) == LAST && LengthFits(w) && Released(w)[LAST] == 0 && Released(w)[INDEX] == 0
  {
    WordsOfSmallIndex(64);
  }

  /** From any in-range index, releases rotate for ever exactly when the last index is at most 63. */
  lemma RotatesExactlyWhen(w: seq<u32>)
    requires Holds(w) && w[INDEX] <= w[LAST]
    ensures (forall k: nat :: RotatesBy(w, k)) <==> w[LAST] <= 63
  {
    if w[LAST] <= 63 {
      forall k: nat
        ensures RotatesBy(w, k)
      {
        Rotation(w, k);
      }
    } else {
      var n: int := w[LAST] as int + 1;
      var k := if w[INDEX] <= 64 then 64 - w[INDEX] else n + 64 - w[INDEX];
      ModIs(w[INDEX] + k, n, if w[INDEX] <= 64 then 0 else 1, 64);
      var r := Releases(w, k);
      if RotatesBy(w, k) {
        RecordSixtyFourIsControl(r);
        assert Releases(w, k + 1) == Released(r);
        assert !RotatesBy(w, k + 1);
      }
    }
  }

  // ---------------------------------------------------------------------------------------------
  // Acquire
  // ---------------------------------------------------------------------------------------------

  predicate Accepts(length: u32, draining: u32) {
    length == FULL || draining != 0
  }

  /** Every record the acquire comes to select lies in memory. The output may be any word. `gap` is what
      others do to the ring between the unlock and the rereads behind it. */
  predicate AcquireFits(w: seq<u32>, out: nat, draining: u32, gap: seq<u32> -> seq<u32>) {
    && Holds(w) && out < |w|
    && var cleared := w[out := 0];
       && LengthFits(cleared)
       && (Accepts(cleared[LengthWord(cleared[INDEX])], draining) ==>
             && AddressWord(cleared[INDEX]) < |w|
             && var after := gap(w[out := cleared[AddressWord(cleared[INDEX])]]);
                |after| == |w| && LengthFits(after))
  }

  function Acquired(w: seq<u32>, out: nat, draining: u32, gap: seq<u32> -> seq<u32>): (seq<u32>, u32)
    requires AcquireFits(w, out, draining, gap)
  {
    var cleared := w[out := 0];
    if !Accepts(cleared[LengthWord(cleared[INDEX])], draining) then (cleared, 0)
    else
      var after := gap(w[out := cleared[AddressWord(cleared[INDEX])]]);
      (after, after[LengthWord(after[INDEX])])
  }

  /** Nobody else runs. */
  function Quiet(w: seq<u32>): seq<u32> {
    w
  }

  method Interleave(ring: array<u32>, gap: seq<u32> -> seq<u32>)
    requires |gap(ring[..])| == ring.Length
    modifies ring
    ensures ring[..] == gap(old(ring[..]))
  {
    var after := gap(ring[..]);
    forall i | 0 <= i < ring.Length {
      ring[i] := after[i];
    }
  }

  /** `audio_buffer_ring_acquire`, with the output word anywhere in the same memory. */
  method Acquire(ring: array<u32>, out: nat, draining: u32, gap: seq<u32> -> seq<u32>) returns (length: u32)
    requires AcquireFits(ring[..], out, draining, gap)
    modifies ring
    ensures (ring[..], length) == Acquired(old(ring[..]), out, draining, gap)
  {
    ghost var w := ring[..];
    ring[out] := 0;
    assert ring[..] == w[out := 0];
    var index := ring[INDEX];
    length := ring[LengthWord(index)];
    if length != FULL && draining == 0 {
      return 0;
    }
    var address := ring[AddressWord(index)];
    ring[out] := address;
    assert ring[..] == w[out := address];
    Interleave(ring, gap);
    length := ring[LengthWord(ring[INDEX])];
  }

  /** An output word that the ring does not read. */
  predicate Apart(w: seq<u32>, out: nat)
    requires Holds(w)
  {
    out != INDEX && out != LengthWord(w[INDEX]) && out != AddressWord(w[INDEX])
  }

  /** With the output apart and nobody else running, an acquire writes nothing but the output, answers the
      current record's length and address exactly when it is full or the ring is draining, and can be
      repeated with the same outcome. */
  lemma AcquirePeeks(w: seq<u32>, out: nat, draining: u32)
    requires Holds(w) && out < |w| && LengthFits(w) && AddressWord(w[INDEX]) < |w| && Apart(w, out)
    ensures AcquireFits(w, out, draining, Quiet)
    ensures var length, address := w[LengthWord(w[INDEX])], w[AddressWord(w[INDEX])];
            Acquired(w, out, draining, Quiet) ==
              if draining != 0 || length == 0x80000 then (w[out := address], length) else (w[out := 0], 0)
    ensures AcquireFits(Acquired(w, out, draining, Quiet).0, out, draining, Quiet)
    ensures Acquired(Acquired(w, out, draining, Quiet).0, out, draining, Quiet) == Acquired(w, out, draining, Quiet)
  {
    var a := Acquired(w, out, draining, Quiet).0;
    assert a[INDEX] == w[INDEX];
    assert a[out := 0] == w[out := 0];
    assert w[out := 0][out := w[AddressWord(w[INDEX])]] == w[out := w[AddressWord(w[INDEX])]];
    assert a[out := w[AddressWord(w[INDEX])]] == w[out := w[AddressWord(w[INDEX])]];
  }

  /** With the index word itself as output, clearing it makes record 0 the one judged, and the length
      answered is that of the record which the copied address happens to number. */
  lemma AcquireIntoIndex(w: seq<u32>, draining: u32)
    requires AcquireFits(w, INDEX, draining, Quiet)
    ensures Acquired(w, INDEX, draining, Quiet) ==
              if draining != 0 || w[14] == 0x80000 then (w[INDEX := w[12]], w[INDEX := w[12]][LengthWord(w[12])])
              else (w[INDEX := 0], 0)
  {
    WordsOfSmallIndex(0);
  }

  // ---------------------------------------------------------------------------------------------
  // Producer, consumer, and when a record comes back
  // ---------------------------------------------------------------------------------------------

  /** What can happen to a sound ring: a release, an acquire into a word past the control words, or the
      producer setting the length of a record. What others do in an acquire's gap are further operations. */
  datatype Op = DoRelease | DoAcquire(out: nat, draining: u32) | Produce(record: nat, length: u32)

  predicate Enabled(w: seq<u32>, op: Op)
    requires Sound(w)
  {
    match op
    case DoRelease => true
    case DoAcquire(out, _) => LAST < out < |w|
    case Produce(record, _) => record <= w[LAST]
  }

  ghost function Step(w: seq<u32>, op: Op): (r: seq<u32>)
    requires Sound(w) && Enabled(w, op)
    ensures Sound(r) && |r| == |w| && r[LAST] == w[LAST]
  {
    SoundStep(w);
    WordsOfSmallIndex(w[INDEX]);
    match op
    case DoRelease => Released(w)
    case DoAcquire(out, draining) => AcquirePeeks(w, out, draining); Acquired(w, out, draining, Quiet).0
    case Produce(record, length) => w[14 + 3 * record := length]
  }

  ghost predicate AllEnabled(w: seq<u32>, ops: seq<Op>)
    requires Sound(w)
  {
    forall i :: 0 <= i < |ops| ==> Enabled(w, ops[i])
  }

  lemma RestEnabled(w: seq<u32>, ops: seq<Op>)
    requires Sound(w) && AllEnabled(w, ops) && ops != []
    ensures AllEnabled(Step(w, ops[0]), ops[1..])
  {
    assert forall i :: 0 <= i < |ops| - 1 ==> ops[1..][i] == ops[i + 1];
  }

  ghost function Run(w: seq<u32>, ops: seq<Op>): (r: seq<u32>)
    requires Sound(w) && AllEnabled(w, ops)
    ensures Sound(r) && |r| == |w| && r[LAST] == w[LAST]
    decreases |ops|
  {
    if ops == [] then w
    else
      RestEnabled(w, ops);
      Run(Step(w, ops[0]), ops[1..])
  }

  /** Record `r` would be accepted only while draining. */
  predicate Spent(w: seq<u32>, r: nat)
    requires Sound(w) && r <= w[LAST]
  {
    w[14 + 3 * r] != 0x80000
  }

  /** A released record stays spent through any run in which the producer does not fill it. */
  lemma {:induction false} RunStaysSpent(w: seq<u32>, ops: seq<Op>, r: nat)
    requires Sound(w) && AllEnabled(w, ops) && r <= w[LAST] && Spent(w, r)
    requires forall i :: 0 <= i < |ops| ==> ops[i] != Produce(r, FULL)
    ensures Spent(Run(w, ops), r)
    decreases |ops|
  {
    if ops != [] {
      var w' := Step(w, ops[0]);
      SoundStep(w);
      WordsOfSmallIndex(w[INDEX]);
      assert Spent(w', r) by {
        if ops[0].DoAcquire? {
          AcquirePeeks(w, ops[0].out, ops[0].draining);
        }
      }
      RestEnabled(w, ops);
      RunStaysSpent(w', ops[1..], r);
    }
  }

  /** So once released, a record is not handed out while not draining, however the ring turns, until the
      producer has filled it again. */
  lemma ReleasedIsNotAcquired(w: seq<u32>, ops: seq<Op>, out: nat)
    requires Sound(w) && AllEnabled(Released(w), ops)
    requires forall i :: 0 <= i < |ops| ==> ops[i] != Produce(w[INDEX], FULL)
    requires Run(Released(w), ops)[INDEX] == w[INDEX] && LAST < out < |w|
    ensures var r := Run(Released(w), ops);
            AcquireFits(r, out, 0, Quiet) && Acquired(r, out, 0, Quiet) == (r[out := 0], 0)
  {
    SoundStep(w);
    RunStaysSpent(Released(w), ops, w[INDEX]);
    var r := Run(Released(w), ops);
    WordsOfSmallIndex(r[INDEX]);
    AcquirePeeks(r, out, 0);
  }

  // ---------------------------------------------------------------------------------------------
  // The gap of an acquire
  // ---------------------------------------------------------------------------------------------

  ghost function CountReleases(ops: seq<Op>): nat {
    if ops == [] then 0 else (if ops[0].DoRelease? then 1 else 0) + CountReleases(ops[1..])
  }

  /** Over any run the index has rotated by the number of releases. */
  lemma {:induction false} RunRotates(w: seq<u32>, ops: seq<Op>)
    requires Sound(w) && AllEnabled(w, ops)
    ensures Run(w, ops)[INDEX] == Rotated(w, CountReleases(ops))
    decreases |ops|
  {
    if ops == [] {
      SmallMod(w[INDEX], w[LAST] + 1);
    } else {
      var w' := Step(w, ops[0]);
      StepRotates(w, ops[0]);
      RestEnabled(w, ops);
      RunRotates(w', ops[1..]);
      var c := CountReleases(ops[1..]);
      assert Run(w, ops)[INDEX] == Rotated(w', c);
      if ops[0].DoRelease? {
        RotatedNext(w, w', c);
        assert CountReleases(ops) == c + 1;
      } else {
        assert CountReleases(ops) == c;
      }
    }
  }

  lemma RotatedNext(w: seq<u32>, w': seq<u32>, k: nat)
    requires Sound(w) && Holds(w') && w'[LAST] == w[LAST] && w'[INDEX] == Rotated(w, 1)
    ensures Rotated(w', k) == Rotated(w, k + 1)
  {
    ModShift(w[INDEX] as int + 1, k, w[LAST] as int + 1);
  }

  lemma RotatedBack(w: seq<u32>, k: nat)
    requires Sound(w)
    ensures Rotated(w, k) == w[INDEX] <==> k % (w[LAST] as int + 1) == 0
  {
    RotationFixes(w[INDEX], k, w[LAST] as int + 1);
  }

  lemma StepRotates(w: seq<u32>, op: Op)
    requires Sound(w) && Enabled(w, op)
    ensures Step(w, op)[INDEX] == if op.DoRelease? then Rotated(w, 1) else w[INDEX]
  {
    SoundStep(w);
    WordsOfSmallIndex(w[INDEX]);
    if op.DoAcquire? {
      AcquirePeeks(w, op.out, op.draining);
    }
  }

  lemma DivMod(x: nat, n: nat)
    requires n > 0
    ensures x == n * (x / n) + x % n
  {
  }

  lemma ModSum(x: nat, k: nat, n: nat, q: nat, r: nat, q': nat, r': nat)
    requires r' < n && x == n * q + r && r + k == n * q' + r'
    ensures (x + k) % n == r'
  {
    assert n * (q + q') == n * q + n * q';
    ModIs(x + k, n, q + q', r');
  }

  lemma ModShift(x: nat, k: nat, n: nat)
    requires n > 0
    ensures (x % n + k) % n == (x + k) % n
  {
    DivMod(x, n);
    DivMod(x % n + k, n);
    ModSum(x, k, n, x / n, x % n, (x % n + k) / n, (x % n + k) % n);
  }

  /** An accepted acquire answers the length of the record whose address it copied exactly when the number
      of releases in its gap is a multiple of the ring's size, whatever the producer did meanwhile. */
  lemma AnswerBelongsExactlyWhen(w: seq<u32>, out: nat, draining: u32, gap: seq<u32> -> seq<u32>, ops: seq<Op>)
    requires Sound(w) && LAST < out < |w| && Accepts(w[14 + 3 * w[INDEX]], draining)
    requires Sound(w[out := w[12 + 3 * w[INDEX]]]) && AllEnabled(w[out := w[12 + 3 * w[INDEX]]], ops)
    requires gap(w[out := w[12 + 3 * w[INDEX]]]) == Run(w[out := w[12 + 3 * w[INDEX]]], ops)
    ensures AcquireFits(w, out, draining, gap)
    ensures var (r, length) := Acquired(w, out, draining, gap);
            && Sound(r) && length == r[14 + 3 * r[INDEX]]
            && (r[INDEX] == w[INDEX] <==> CountReleases(ops) % (w[LAST] + 1) == 0)
  {
    var copied := w[out := w[12 + 3 * w[INDEX]]];
    var r := Run(copied, ops);
    SoundStep(r);
    AcceptedAcquire(w, out, draining, gap, r);
    RunRotates(copied, ops);
    RotatedBack(copied, CountReleases(ops));
  }

  /** An accepted acquire on a sound ring, `r` being what its gap leaves. */
  lemma AcceptedAcquire(w: seq<u32>, out: nat, draining: u32, gap: seq<u32> -> seq<u32>, r: seq<u32>)
    requires Sound(w) && LAST < out < |w| && Accepts(w[14 + 3 * w[INDEX]], draining)
    requires gap(w[out := w[12 + 3 * w[INDEX]]]) == r && Sound(r) && |r| == |w|
    ensures AcquireFits(w, out, draining, gap)
    ensures Acquired(w, out, draining, gap) == (r, r[14 + 3 * r[INDEX]])
  {
    SoundStep(r);
    WordsOfSmallIndex(w[INDEX]);
    var cleared := w[out := 0];
    assert cleared[INDEX] == w[INDEX] && cleared[14 + 3 * w[INDEX]] == w[14 + 3 * w[INDEX]];
    assert cleared[12 + 3 * w[INDEX]] == w[12 + 3 * w[INDEX]];
  }

  lemma RotationFixes(i: nat, k: nat, n: nat)
    requires i < n
    ensures (i + k) % n == i <==> k % n == 0
  {
    var q, r := k / n, k % n;
    DivMod(k, n);
    if i + r < n {
      ModIs(i + k, n, q, i + r);
    } else {
      assert n * (q + 1) == n * q + n;
      ModIs(i + k, n, q + 1, i + r - n);
    }
  }

  /** One release in the gap, and the answer is the next record's length beside this record's address. */
  lemma GapAnswersNextRecord(w: seq<u32>, out: nat, gap: seq<u32> -> seq<u32>)
    requires Sound(w) && w[LAST] > 0 && LAST < out < |w| && w[14 + 3 * w[INDEX]] == FULL
    requires Sound(w[out := w[12 + 3 * w[INDEX]]])
    requires gap(w[out := w[12 + 3 * w[INDEX]]]) == Run(w[out := w[12 + 3 * w[INDEX]]], [DoRelease])
    ensures AcquireFits(w, out, 0, gap)
    ensures var (r, length) := Acquired(w, out, 0, gap);
            var next := if w[INDEX] == w[LAST] then 0 else w[INDEX] + 1;
            r[INDEX] == next && r[out] == w[12 + 3 * w[INDEX]] && length == w[14 + 3 * next]
  {
    var copied := w[out := w[12 + 3 * w[INDEX]]];
    AnswerBelongsExactlyWhen(w, out, 0, gap, [DoRelease]);
    assert [DoRelease][1..] == [];
    assert Run(copied, [DoRelease]) == Step(copied, DoRelease);
    SoundStep(copied);
    WordsOfSmallIndex(w[INDEX]);
    NextIndex(w[INDEX], w[LAST]);
  }
}
