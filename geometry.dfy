/** Geometry of a block: the side of the square it is laid out in, the reserved
    (power-of-two) parity slots, and the order in which data positions are filled. */
module Geometry {

  /** Searches upward from r for the integer square root of n. */
  function SqrtSearch(n: nat, r: nat): (s: nat)
    requires r * r <= n
    ensures s * s <= n < (s + 1) * (s + 1)
    decreases n - r
  {
    if n < (r + 1) * (r + 1) then r
    else
      assert r + 1 <= (r + 1) * (r + 1);
      SqrtSearch(n, r + 1)
  }

  /** The side of the square a block of length n is laid out in: the largest s with s * s <= n. */
  function ISqrt(n: nat): (s: nat)
    ensures s * s <= n < (s + 1) * (s + 1)
  {
    SqrtSearch(n, 0)
  }

  /** Integer exponentiation, base^e. */
  function Pow(base: int, e: nat): int
  {
    if e == 0 then 1 else base * Pow(base, e - 1)
  }

  /** The reserved positions of a block of length n: base^0, base^1, ..., one per row of the square. */
  function GeneratePowers(base: int, n: nat): (powers: seq<int>)
    ensures |powers| * |powers| <= n < (|powers| + 1) * (|powers| + 1)
    ensures forall i :: 0 <= i < |powers| ==> powers[i] == Pow(base, i)
  {
    seq(ISqrt(n), i requires 0 <= i => Pow(base, i))
  }

  /** Powers of two are positive and strictly increasing. */
  lemma {:induction false} PowTwoGrows(i: nat, j: nat)
    requires i < j
    ensures 1 <= Pow(2, i) < Pow(2, j)
  {
    if i < j - 1 {
      PowTwoGrows(i, j - 1);
    } else if i > 0 {
      PowTwoGrows(i - 1, i);
    }
  }

  /** The reserved positions of base 2 are positive and strictly ascending, so none is
      position 0 and no two coincide. */
  lemma PowersOfTwoAscending(n: nat)
    ensures forall i :: 0 <= i < |GeneratePowers(2, n)| ==> 1 <= GeneratePowers(2, n)[i]
    ensures forall i, j :: 0 <= i < j < |GeneratePowers(2, n)| ==>
      GeneratePowers(2, n)[i] < GeneratePowers(2, n)[j]
  {
    var powers := GeneratePowers(2, n);
    forall i | 0 <= i < |powers|
      ensures 1 <= powers[i]
    {
      PowTwoGrows(i, i + 1);
    }
    forall i, j | 0 <= i < j < |powers|
      ensures powers[i] < powers[j]
    {
      PowTwoGrows(i, j);
    }
  }

  /** For the 16-cell block the square has side 4 and the reserved positions are 1, 2, 4, 8. */
  lemma PowersOfSixteen()
    ensures ISqrt(16) == 4
    ensures GeneratePowers(2, 16) == [1, 2, 4, 8]
  {
  }

  /** A data position: neither position 0 (the overall parity) nor a reserved position. */
  predicate IsDataPosition(i: nat, powers: seq<int>)
  {
    i != 0 && i !in powers
  }

  /** The number of data positions among 1, ..., i - 1: the value of the data counter when
      the placement walk reaches position i. */
  function DataCount(i: nat, powers: seq<int>): nat
  {
    if i <= 1 then 0
    else DataCount(i - 1, powers) + (if IsDataPosition(i - 1, powers) then 1 else 0)
  }

  /** The data counter never decreases along the walk. */
  lemma {:induction false} DataCountMono(i: nat, j: nat, powers: seq<int>)
    requires i <= j
    ensures DataCount(i, powers) <= DataCount(j, powers)
  {
    if i < j {
      DataCountMono(i, j - 1, powers);
    }
  }

  /** Data positions receive input indices in ascending order: a data position before
      another receives an earlier input element. */
  lemma DataCountAscending(i: nat, j: nat, powers: seq<int>)
    requires IsDataPosition(i, powers) && i < j
    ensures DataCount(i, powers) < DataCount(j, powers)
  {
    DataCountMono(i + 1, j, powers);
  }

  /** Every input index below the final count is used by some data position before n. */
  lemma {:induction false} DataCountOnto(k: nat, n: nat, powers: seq<int>)
    requires k < DataCount(n, powers)
    ensures exists i :: 0 <= i < n && IsDataPosition(i, powers) && DataCount(i, powers) == k
  {
    if k < DataCount(n - 1, powers) {
      DataCountOnto(k, n - 1, powers);
    } else {
      assert IsDataPosition(n - 1, powers) && DataCount(n - 1, powers) == k;
    }
  }

  /** A block of 16 cells has 11 data positions, 3, 5, 6, 7 and 9 to 15, which take input
      bits 0 to 10 in that order. */
  lemma DataCountOfSixteen()
    ensures DataCount(3, [1, 2, 4, 8]) == 0 && DataCount(5, [1, 2, 4, 8]) == 1
    ensures DataCount(6, [1, 2, 4, 8]) == 2 && DataCount(7, [1, 2, 4, 8]) == 3
    ensures DataCount(9, [1, 2, 4, 8]) == 4 && DataCount(10, [1, 2, 4, 8]) == 5
    ensures DataCount(11, [1, 2, 4, 8]) == 6 && DataCount(12, [1, 2, 4, 8]) == 7
    ensures DataCount(13, [1, 2, 4, 8]) == 8 && DataCount(14, [1, 2, 4, 8]) == 9
    ensures DataCount(15, [1, 2, 4, 8]) == 10 && DataCount(16, [1, 2, 4, 8]) == 11
  {
    var powers := [1, 2, 4, 8];
    assert DataCount(2, powers) == 0;
    assert DataCount(3, powers) == 0;
    assert DataCount(4, powers) == 1;
    assert DataCount(5, powers) == 1;
    assert DataCount(6, powers) == 2;
    assert DataCount(7, powers) == 3;
    assert DataCount(8, powers) == 4;
    assert DataCount(9, powers) == 4;
    assert DataCount(10, powers) == 5;
    assert DataCount(11, powers) == 6;
    assert DataCount(12, powers) == 7;
    assert DataCount(13, powers) == 8;
    assert DataCount(14, powers) == 9;
    assert DataCount(15, powers) == 10;
  }
}
