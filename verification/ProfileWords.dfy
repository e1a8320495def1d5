/**
  32-bit cycle stamps: a difference and a sum wrap modulo 2^32, and sums of
  differences still telescope.
 */
module ProfileWords {

  const M: nat := 0x1_0000_0000

  type Word = x: nat | x < M witness 0

  /** What the interrupt hands over at a time: the fields of a window, or of an entry. */
  type Fields = seq<Word>

  predicate AllWide(gap: seq<Fields>, k: nat) { forall i | 0 <= i < |gap| :: |gap[i]| == k }

  function Wrap(x: int): Word { x % M }

  function Add(x: int, y: int): Word { Wrap(x + y) }

  function Sub(x: int, y: int): Word { Wrap(x - y) }

  lemma {:induction false} WrapAdd(x: int, y: int)
    ensures Add(Wrap(x), Wrap(y)) == Wrap(x + y)
  {
    var a, b := x / M, y / M;
    assert x == a * M + Wrap(x) && y == b * M + Wrap(y);
    SameResidue(x + y, Wrap(x) + Wrap(y), a + b);
  }

  lemma {:induction false} SameResidue(x: int, y: int, q: int)
    requires x == y + q * M
    ensures Wrap(x) == Wrap(y)
  {
    var r := y / M;
    assert x == (q + r) * M + y % M;
  }

  lemma {:induction false} WrapSmall(x: int)
    requires 0 <= x < M
    ensures Wrap(x) == x
  {
  }

  lemma {:induction false} WrapOne(x: int)
    ensures Add(Wrap(x), 1) == Wrap(x + 1)
  {
    WrapAdd(x, 1);
    WrapSmall(1);
  }

  lemma {:induction false} WrapSub(x: int, y: int)
    ensures Sub(Wrap(x), Wrap(y)) == Wrap(x - y)
  {
    var a, b := x / M, y / M;
    assert x == a * M + Wrap(x) && y == b * M + Wrap(y);
    SameResidue(x - y, Wrap(x) - Wrap(y), a - b);
  }
}
