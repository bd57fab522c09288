/** The banked slot table: wrapping slot addresses, and a close that finalizes, reloads, releases and
    clears while its callees may write the table. */
module BankedSlots {
  import opened Words

  const BANK_BYTES := 0x2100
  const SLOT_BYTES := 0x210
  const NOTHING_TO_CLOSE: u32 := 13

  /** Byte offset of a slot; banks are not validated. */
  function SlotOffset(bank: u32, index: u32): u32
    requires index < 16
  {
    Wrap(Wrap(bank * BANK_BYTES) + index * SLOT_BYTES)
  }

  /** The word that holds the slot's object; its kind is the low byte two words on. */
  function SlotWord(bank: u32, index: u32): nat
    requires index < 16
  {
    SlotOffset(bank, index) / 4
  }

  // ---------------------------------------------------------------------------------------------
  // Addresses
  // ---------------------------------------------------------------------------------------------

  lemma OffsetIsLinear(bank: u32, index: u32)
    requires index < 16
    ensures SlotOffset(bank, index) == Wrap(SLOT_BYTES * (16 * bank + index))
  {
    var x, y := bank * BANK_BYTES, index * SLOT_BYTES;
    assert SLOT_BYTES * (16 * bank + index) == x + y;
    WrapSum(x, y);
  }

  /** Offsets that do not wrap tile the table: a byte lies in the slot of its own bank and index and in
      no other. */
  lemma SlotsTile(bank: u32, index: u32, p: nat)
    requires index < 16 && SLOT_BYTES * (16 * bank + index) < TWO_32
    ensures SlotOffset(bank, index) <= p < SlotOffset(bank, index) + SLOT_BYTES <==>
            bank == p / BANK_BYTES && index == p % BANK_BYTES / SLOT_BYTES
  {
    OffsetIsLinear(bank, index);
    WrapOnce(SLOT_BYTES * (16 * bank + index));
  }

  /** Two slots share an address exactly when their indices are equal and their banks agree in the low 24
      bits. */
  lemma AliasExactlyWhen(bank: u32, index: u32, bank': u32, index': u32)
    requires index < 16 && index' < 16
    ensures SlotOffset(bank, index) == SlotOffset(bank', index') <==>
            index == index' && bank % 0x100_0000 == bank' % 0x100_0000
  {
    var m, m' := 16 * bank + index, 16 * bank' + index';
    OffsetIsLinear(bank, index);
    OffsetIsLinear(bank', index');
    WrapEqual(SLOT_BYTES * m, SLOT_BYTES * m');
    ThirtyThreeInvertible(m - m');
    BankAndIndex(bank, index, bank', index');
  }

  lemma WrapEqual(x: int, y: int)
    ensures Wrap(x) == Wrap(y) <==> (x - y) % TWO_32 == 0
  {
  }

  const TWO_28 := 0x1000_0000

  lemma DividesBy(x: int, n: int, k: int)
    requires n > 0 && x == n * k
    ensures x % n == 0 && x / n == k
  {
    MulBelow(n, x / n, k);
    MulBelow(n, k, x / n);
  }

  /** A slot is 16 times 33 bytes, and 33 is odd. */
  lemma ThirtyThreeInvertible(x: int)
    ensures (SLOT_BYTES * x) % TWO_32 == 0 <==> x % TWO_28 == 0
  {
    if (SLOT_BYTES * x) % TWO_32 == 0 {
      var k := SLOT_BYTES * x / TWO_32;
      assert 33 * x == k * TWO_28;
      DividesBy(x, TWO_28, 235897825 * k - 29 * x);
    } else if x % TWO_28 == 0 {
      var k := x / TWO_28;
      assert x == TWO_28 * k;
      DividesBy(SLOT_BYTES * x, TWO_32, 33 * k);
    }
  }

  lemma BankAndIndex(bank: u32, index: u32, bank': u32, index': u32)
    requires index < 16 && index' < 16
    ensures (16 * bank + index - (16 * bank' + index')) % TWO_28 == 0 <==>
            index == index' && bank % 0x100_0000 == bank' % 0x100_0000
  {
  }

  // ---------------------------------------------------------------------------------------------
  // Close
  // ---------------------------------------------------------------------------------------------

  datatype Finalized = Finalized(words: seq<u32>, status: u32)

  /** The resident finalizer and the object's release. Either may write the table. */
  datatype Callees = Callees(
    finalize: (seq<u32>, u32, u32, u32) -> Finalized,
    release: (seq<u32>, u32) -> seq<u32>)

  ghost predicate KeepsLength(w: Callees) {
    && (forall s: seq<u32>, c: u32, b: u32, i: u32 :: |w.finalize(s, c, b, i).words| == |s|)
    && (forall s: seq<u32>, o: u32 :: |w.release(s, o)| == |s|)
  }

  predicate Fits(words: seq<u32>, bank: u32, index: u32) {
    index < 16 ==> SlotWord(bank, index) + 2 < |words|
  }

  function Kind(words: seq<u32>, at: nat): u8
    requires at + 2 < |words|
  {
    words[at + 2] % 0x100
  }

  predicate NeedsFinalizer(kind: u8) {
    kind == 1 || kind == 2
  }

  /** The table and the objects released so far. */
  datatype Table = Table(words: seq<u32>, released: seq<u32>)

  /** The table once the finalizer, if the kind calls for one, has run. */
  function AfterFinalizer(t: Table, w: Callees, context: u32, bank: u32, index: u32): Finalized
    requires index < 16 && Fits(t.words, bank, index)
  {
    if NeedsFinalizer(Kind(t.words, SlotWord(bank, index))) then w.finalize(t.words, context, bank, index)
    else Finalized(t.words, 0)
  }

  /** `close_in_table` */
  ghost function Closed(t: Table, w: Callees, context: u32, bank: u32, index: u32): (Table, u32)
    requires KeepsLength(w) && Fits(t.words, bank, index)
  {
    if index >= 16 then (t, NOTHING_TO_CLOSE)
    else
      var at := SlotWord(bank, index);
      if t.words[at] == 0 then (t, NOTHING_TO_CLOSE)
      else
        var f := AfterFinalizer(t, w, context, bank, index);
        if f.words[at] == 0 then (t.(words := f.words), f.status)
        else
          (Table(w.release(f.words, f.words[at])[at := 0], t.released + [f.words[at]]), f.status)
  }

  class SlotTable {
    const words: array<u32>
    var released: seq<u32>

    constructor (words: array<u32>)
      ensures this.words == words && released == []
    {
      this.words := words;
      released := [];
    }

    function View(): Table
      reads this, words
    {
      Table(words[..], released)
    }

    method Fill(contents: seq<u32>)
      requires |contents| == words.Length
      modifies words
      ensures words[..] == contents
    {
      forall i | 0 <= i < words.Length {
        words[i] := contents[i];
      }
    }

    method Finalize(callees: Callees, context: u32, bank: u32, index: u32) returns (status: u32)
      requires KeepsLength(callees)
      modifies words
      ensures Finalized(words[..], status) == callees.finalize(old(words[..]), context, bank, index)
    {
      var f := callees.finalize(words[..], context, bank, index);
      Fill(f.words);
      status := f.status;
    }

    method Release(callees: Callees, target: u32)
      requires KeepsLength(callees)
      modifies words, this`released
      ensures words[..] == callees.release(old(words[..]), target) && released == old(released) + [target]
    {
      Fill(callees.release(words[..], target));
      released := released + [target];
    }

    /** `close_in_table` */
    method Close(callees: Callees, context: u32, bank: u32, index: u32) returns (status: u32)
      requires KeepsLength(callees) && Fits(words[..], bank, index)
      modifies words, this`released
      ensures (View(), status) == Closed(old(View()), callees, context, bank, index)
    {
      if index >= 16 {
        return NOTHING_TO_CLOSE;
      }
      var at := SlotWord(bank, index);
      if words[at] == 0 {
        return NOTHING_TO_CLOSE;
      }
      var kind := words[at + 2] % 0x100;
      status := 0;
      if kind == 1 || kind == 2 {
        status := Finalize(callees, context, bank, index);
        if words[at] == 0 {
          return status;
        }
      }
      Release(callees, words[at]);
      words[at] := 0;
    }
  }

  /** A close of a slot past the sixteenth answers 13 and does nothing. */
  lemma CloseRejects(t: Table, w: Callees, context: u32, bank: u32, index: u32)
    requires KeepsLength(w) && index >= 16
    ensures Closed(t, w, context, bank, index) == (t, 13)
  {
  }

  /** The byte eight on from the object word of a slot says whether the finalizer runs: for kinds 1 and 2
      it does, on the table as it is and before anything else, and for the others it does not. */
  lemma KindDecides(t: Table, w: Callees, context: u32, bank: u32, index: u32)
    requires KeepsLength(w) && index < 16 && Fits(t.words, bank, index)
    ensures var at := (bank * 0x2100 + index * 0x210) % 0x1_0000_0000 / 4;
            && at + 2 < |t.words|
            && AfterFinalizer(t, w, context, bank, index) ==
               if t.words[at + 2] % 0x100 in {1, 2} then w.finalize(t.words, context, bank, index)
               else Finalized(t.words, 0)
  {
    OffsetIsLinear(bank, index);
  }

  /** Apart from what finalizer and release write, a close changes only its slot's object word; it leaves
      the slot empty; it releases exactly the object present after finalization, or nothing; and an
      empty slot is not touched at all. */
  lemma CloseEffect(t: Table, w: Callees, context: u32, bank: u32, index: u32)
    requires KeepsLength(w) && index < 16 && Fits(t.words, bank, index)
    ensures var at, (t', status) := SlotWord(bank, index), Closed(t, w, context, bank, index);
            && |t'.words| == |t.words| && t'.words[at] == 0
            && (t.words[at] == 0 ==> t' == t && status == NOTHING_TO_CLOSE)
            && (t.words[at] != 0 ==>
                  var f := AfterFinalizer(t, w, context, bank, index);
                  && status == f.status
                  && (f.words[at] == 0 ==> t'.released == t.released && t'.words == f.words)
                  && (f.words[at] != 0 ==>
                        && t'.released == t.released + [f.words[at]]
                        && (forall i :: 0 <= i < |t.words| && i != at ==> t'.words[i] == w.release(f.words, f.words[at])[i])))
  {
  }

  /** Closes of any slots, each with callees of its own, and refills of single words by the rest of the
      program. */
  datatype Op = Close(callees: Callees, context: u32, bank: u32, index: u32) | Refill(at: nat, value: u32)

  ghost predicate Enabled(t: Table, op: Op) {
    match op
    case Close(w, _, bank, index) => KeepsLength(w) && Fits(t.words, bank, index)
    case Refill(at, _) => at < |t.words|
  }

  ghost function Step(t: Table, op: Op): (r: Table)
    requires Enabled(t, op)
    ensures |r.words| == |t.words|
  {
    match op
    case Close(w, context, bank, index) => Closed(t, w, context, bank, index).0
    case Refill(at, value) => t.(words := t.words[at := value])
  }

  ghost predicate AllEnabled(t: Table, ops: seq<Op>) {
    forall i :: 0 <= i < |ops| ==> Enabled(t, ops[i])
  }

  lemma RestEnabled(t: Table, ops: seq<Op>)
    requires AllEnabled(t, ops) && ops != []
    ensures AllEnabled(Step(t, ops[0]), ops[1..])
  {
    assert forall i :: 0 <= i < |ops| - 1 ==> ops[1..][i] == ops[i + 1];
  }

  ghost function Run(t: Table, ops: seq<Op>): (r: Table)
    requires AllEnabled(t, ops)
    ensures |r.words| == |t.words|
    decreases |ops|
  {
    if ops == [] then t
    else
      RestEnabled(t, ops);
      Run(Step(t, ops[0]), ops[1..])
  }

  /** The callees never put an object into an empty slot at this word. */
  ghost predicate LeavesEmpty(w: Callees, at: nat) {
    && (forall s: seq<u32>, c: u32, b: u32, i: u32 ::
          at < |s| && s[at] == 0 && at < |w.finalize(s, c, b, i).words| ==> w.finalize(s, c, b, i).words[at] == 0)
    && (forall s: seq<u32>, o: u32 :: at < |s| && s[at] == 0 && at < |w.release(s, o)| ==> w.release(s, o)[at] == 0)
  }

  /** Nothing refills this word: no refill aims at it, and no callee fills it. */
  ghost predicate Unfilled(op: Op, at: nat) {
    match op
    case Close(w, _, _, _) => LeavesEmpty(w, at)
    case Refill(place, value) => place != at || value == 0
  }

  /** A word that stays out of refills stays zero, whichever slots close meanwhile. */
  lemma {:induction false} RunStaysEmpty(t: Table, ops: seq<Op>, at: nat)
    requires AllEnabled(t, ops) && at < |t.words| && t.words[at] == 0
    requires forall i :: 0 <= i < |ops| ==> Unfilled(ops[i], at)
    ensures Run(t, ops).words[at] == 0
    decreases |ops|
  {
    if ops != [] {
      var t' := Step(t, ops[0]);
      assert Unfilled(ops[0], at);
      RestEnabled(t, ops);
      RunStaysEmpty(t', ops[1..], at);
    }
  }

  /** Once closed, a slot answers 13 and is left alone by every later close, its aliases' included, until
      it is refilled. */
  lemma ClosedStaysClosed(t: Table, w: Callees, context: u32, bank: u32, index: u32, ops: seq<Op>,
                          w': Callees, context': u32, bank': u32)
    requires KeepsLength(w) && KeepsLength(w') && index < 16 && Fits(t.words, bank, index)
    requires bank' % 0x100_0000 == bank % 0x100_0000
    requires AllEnabled(Closed(t, w, context, bank, index).0, ops)
    requires forall i :: 0 <= i < |ops| ==> Unfilled(ops[i], SlotWord(bank, index))
    ensures var r := Run(Closed(t, w, context, bank, index).0, ops);
            Fits(r.words, bank', index) && Closed(r, w', context', bank', index) == (r, NOTHING_TO_CLOSE)
  {
    CloseEffect(t, w, context, bank, index);
    AliasExactlyWhen(bank, index, bank', index);
    RunStaysEmpty(Closed(t, w, context, bank, index).0, ops, SlotWord(bank, index));
  }
}
