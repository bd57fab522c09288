/** Machine words as the ARM code sees them: unsigned and signed 32-bit integers with the
    source's `wrapping_*` arithmetic written out over unbounded integers. */
module Words {
  const TWO_30 := 0x4000_0000
  const TWO_31 := 0x8000_0000
  const TWO_32 := 0x1_0000_0000

  type u8 = w: int | 0 <= w < 0x100
  type u32 = w: int | 0 <= w < 0x1_0000_0000
  type i32 = w: int | -0x8000_0000 <= w < 0x8000_0000

  datatype Option<+T> = None | Some(value: T)

  /** The low 32 bits of an integer. */
  function Wrap(x: int): u32 {
    x % TWO_32
  }

  lemma MulAtMost(n: nat, a: int, b: int)
    requires a <= b
    ensures n * a <= n * b
  {
  }

  lemma MulBelow(n: nat, a: int, b: int)
    ensures a < b ==> n * a + n <= n * b
  {
    assert n * (a + 1) == n * a + n;
    if a + 1 <= b {
      MulAtMost(n, a + 1, b);
    }
  }

  lemma WrapOnce(x: int)
    requires 0 <= x < 2 * TWO_32
    ensures Wrap(x) == if x < TWO_32 then x else x - TWO_32
  {
  }

  lemma WrapSum(x: int, y: int)
    ensures Wrap(Wrap(x) + y) == Wrap(x + y)
  {
    var q := x / TWO_32;
    assert x == q * TWO_32 + Wrap(x);
    WrapMultiple(Wrap(x) + y, q);
  }

  lemma WrapMultiple(x: int, q: int)
    ensures Wrap(x + q * TWO_32) == Wrap(x)
  {
  }

  /** `w as i32`. */
  function Signed(w: u32): i32 {
    if w < TWO_31 then w else w - TWO_32
  }

  /** Two's complement result of a wrapping signed operation. */
  function WrapSigned(x: int): i32 {
    Signed(Wrap(x))
  }

  function Min(a: int, b: int): int {
    if a <= b then a else b
  }

  function Max(a: int, b: int): int {
    if a <= b then b else a
  }

  // ---------------------------------------------------------------------------------------------
  // Bit sets
  // ---------------------------------------------------------------------------------------------

  /** A word as the set of its raised bits: `|` is union and `& !` is difference. */
  type Bits = iset<bv5>

  predicate BitUp(w: bv32, b: bv5) {
    (w >> b) & 1 != 0
  }

  ghost function BitsOf(w: bv32): Bits {
    iset b: bv5 | BitUp(w, b)
  }

  lemma BitOfOr(v: bv32, w: bv32, b: bv5)
    ensures BitUp(v | w, b) <==> BitUp(v, b) || BitUp(w, b)
  {
    assert ((v | w) >> b) & 1 == ((v >> b) & 1) | ((w >> b) & 1);
  }

  lemma OrIsUnion(v: bv32, w: bv32)
    ensures BitsOf(v | w) == BitsOf(v) + BitsOf(w)
  {
    forall b: bv5 {
      BitOfOr(v, w, b);
    }
  }

  lemma BitOfBic(v: bv32, w: bv32, b: bv5)
    ensures BitUp(v & !w, b) <==> BitUp(v, b) && !BitUp(w, b)
  {
  }

  lemma BicIsDifference(v: bv32, w: bv32)
    ensures BitsOf(v & !w) == BitsOf(v) - BitsOf(w)
  {
    forall b: bv5 {
      BitOfBic(v, w, b);
    }
  }
}
