/** The parity engine: XOR reductions over a whole block, over groups of columns and over
    groups of rows of its square layout (cell i sits at row i / h, column i % h). */
module Parity {
  import opened Geometry

  /** One cell of a block: a bit, `true` for 1 and `false` for 0. XOR of two bits is `!=`. */
  type Bit = bool

  /** The two index groups of the directional parities: indices {1, 3} (low index bit set)
      and {2, 3} (high index bit set), used once for columns and once for rows. */
  const Q1And3: seq<nat> := [1, 3]
  const Q2And4: seq<nat> := [2, 3]

  /** XOR of all cells of s, accumulated from the first to the last. */
  function Xor(s: seq<Bit>): Bit
  {
    if |s| == 0 then false else Xor(s[..|s| - 1]) != s[|s| - 1]
  }

  /** Replacing one cell changes the XOR of the block by the old value XOR the new one. */
  lemma {:induction false} XorUpdate(s: seq<Bit>, k: nat, v: Bit)
    requires k < |s|
    ensures Xor(s[k := v]) == (Xor(s) != (s[k] != v))
  {
    var n := |s|;
    var t := s[k := v];
    if k == n - 1 {
      assert t[..n - 1] == s[..n - 1];
    } else {
      assert t[..n - 1] == s[..n - 1][k := v];
      XorUpdate(s[..n - 1], k, v);
    }
  }

  /** The XOR of a concatenation is the XOR of the XORs of its parts. */
  lemma {:induction false} XorConcat(a: seq<Bit>, b: seq<Bit>)
    ensures Xor(a + b) == (Xor(a) != Xor(b))
  {
    if |b| == 0 {
      assert a + b == a;
    } else {
      assert (a + b)[..|a + b| - 1] == a + b[..|b| - 1];
      XorConcat(a, b[..|b| - 1]);
    }
  }

  lemma XorOfFour(w: Bit, x: Bit, y: Bit, z: Bit)
    ensures Xor([w, x, y, z]) == (((w != x) != y) != z)
  {
    assert [w][..0] == [];
    assert Xor([w]) == w;
    assert [w, x][..1] == [w];
    assert Xor([w, x]) == (w != x);
    assert [w, x, y][..2] == [w, x];
    assert Xor([w, x, y]) == ((w != x) != y);
    assert [w, x, y, z][..3] == [w, x, y];
  }

  lemma MulLe(a: nat, b: nat, h: nat)
    requires a <= b
    ensures a * h <= b * h
  {
  }

  /** Column c of a square of side h lies inside the block: its bottom cell is a valid index. */
  predicate ColumnInBlock(len: nat, c: nat, h: nat)
  {
    h == 0 || c + (h - 1) * h < len
  }

  /** Row r of a square of side h lies inside the block: its last cell is a valid index. */
  predicate RowInBlock(len: nat, r: nat, h: nat)
  {
    h == 0 || r * h + h - 1 < len
  }

  /** XOR of the first n cells of column c, top down, in a square of side h. */
  function ColumnXor(b: seq<Bit>, c: nat, h: nat, n: nat): Bit
    requires n <= h && ColumnInBlock(|b|, c, h)
  {
    if n == 0 then false
    else
      MulLe(n - 1, h - 1, h);
      ColumnXor(b, c, h, n - 1) != b[c + (n - 1) * h]
  }

  /** XOR of the first n cells of row r, left to right, in a square of side h. */
  function RowXor(b: seq<Bit>, r: nat, h: nat, n: nat): Bit
    requires n <= h && RowInBlock(|b|, r, h)
  {
    if n == 0 then false else RowXor(b, r, h, n - 1) != b[r * h + n - 1]
  }

  /** XOR of every cell of the listed columns, column by column. */
  function ColumnsXor(b: seq<Bit>, cols: seq<nat>, h: nat): Bit
    requires forall c :: c in cols ==> ColumnInBlock(|b|, c, h)
  {
    if |cols| == 0 then false
    else ColumnsXor(b, cols[..|cols| - 1], h) != ColumnXor(b, cols[|cols| - 1], h, h)
  }

  /** XOR of every cell of the listed rows, row by row. */
  function RowsXor(b: seq<Bit>, rows: seq<nat>, h: nat): Bit
    requires forall r :: r in rows ==> RowInBlock(|b|, r, h)
  {
    if |rows| == 0 then false
    else RowsXor(b, rows[..|rows| - 1], h) != RowXor(b, rows[|rows| - 1], h, h)
  }

  /** The block lengths on which the four directional parities read only cells of the block:
      column 3 and row 3 of the square of side ISqrt(len) stay inside it. */
  predicate ParitiesDefined(len: nat)
  {
    var h := ISqrt(len);
    ColumnInBlock(len, 3, h) && RowInBlock(len, 3, h)
  }

  /** The four directional parities in their fixed order: columns {1, 3}, columns {2, 3},
      rows {1, 3}, rows {2, 3}. */
  function Parities(b: seq<Bit>): (p: seq<Bit>)
    requires ParitiesDefined(|b|)
    ensures |p| == 4
  {
    var h := ISqrt(|b|);
    MulLe(1, 3, h);
    [ColumnsXor(b, Q1And3, h), ColumnsXor(b, Q2And4, h), RowsXor(b, Q1And3, h), RowsXor(b, Q2And4, h)]
  }

  // Group membership. A cell met an even number of times cancels out of an XOR, so
  // membership is counted modulo 2.

  /** Whether position k is among the first n cells of column c (counted modulo 2). */
  function ColumnHits(k: nat, c: nat, h: nat, n: nat): bool
  {
    n > 0 && (ColumnHits(k, c, h, n - 1) != (k == c + (n - 1) * h))
  }

  /** Whether position k is among the first n cells of row r (counted modulo 2). */
  function RowHits(k: nat, r: nat, h: nat, n: nat): bool
  {
    n > 0 && (RowHits(k, r, h, n - 1) != (k == r * h + n - 1))
  }

  /** Whether position k is in the listed columns (counted modulo 2). */
  function ColumnsHit(k: nat, cols: seq<nat>, h: nat): bool
  {
    |cols| > 0 && (ColumnsHit(k, cols[..|cols| - 1], h) != ColumnHits(k, cols[|cols| - 1], h, h))
  }

  /** Whether position k is in the listed rows (counted modulo 2). */
  function RowsHit(k: nat, rows: seq<nat>, h: nat): bool
  {
    |rows| > 0 && (RowsHit(k, rows[..|rows| - 1], h) != RowHits(k, rows[|rows| - 1], h, h))
  }

  /** Which of the four directional groups contain position k, in the order of Parities. */
  function Membership(k: nat, h: nat): seq<bool>
  {
    [ColumnsHit(k, Q1And3, h), ColumnsHit(k, Q2And4, h), RowsHit(k, Q1And3, h), RowsHit(k, Q2And4, h)]
  }

  lemma {:induction false} ColumnXorUpdate(b: seq<Bit>, c: nat, h: nat, n: nat, k: nat, v: Bit)
    requires n <= h && ColumnInBlock(|b|, c, h) && k < |b|
    ensures ColumnXor(b[k := v], c, h, n)
      == (ColumnXor(b, c, h, n) != (ColumnHits(k, c, h, n) && b[k] != v))
  {
    if n > 0 {
      MulLe(n - 1, h - 1, h);
      ColumnXorUpdate(b, c, h, n - 1, k, v);
    }
  }

  lemma {:induction false} RowXorUpdate(b: seq<Bit>, r: nat, h: nat, n: nat, k: nat, v: Bit)
    requires n <= h && RowInBlock(|b|, r, h) && k < |b|
    ensures RowXor(b[k := v], r, h, n)
      == (RowXor(b, r, h, n) != (RowHits(k, r, h, n) && b[k] != v))
  {
    if n > 0 {
      RowXorUpdate(b, r, h, n - 1, k, v);
    }
  }

  lemma {:induction false} ColumnsXorUpdate(b: seq<Bit>, cols: seq<nat>, h: nat, k: nat, v: Bit)
    requires (forall c :: c in cols ==> ColumnInBlock(|b|, c, h)) && k < |b|
    ensures ColumnsXor(b[k := v], cols, h)
      == (ColumnsXor(b, cols, h) != (ColumnsHit(k, cols, h) && b[k] != v))
  {
    if |cols| > 0 {
      ColumnsXorUpdate(b, cols[..|cols| - 1], h, k, v);
      ColumnXorUpdate(b, cols[|cols| - 1], h, h, k, v);
    }
  }

  lemma {:induction false} RowsXorUpdate(b: seq<Bit>, rows: seq<nat>, h: nat, k: nat, v: Bit)
    requires (forall r :: r in rows ==> RowInBlock(|b|, r, h)) && k < |b|
    ensures RowsXor(b[k := v], rows, h)
      == (RowsXor(b, rows, h) != (RowsHit(k, rows, h) && b[k] != v))
  {
    if |rows| > 0 {
      RowsXorUpdate(b, rows[..|rows| - 1], h, k, v);
      RowXorUpdate(b, rows[|rows| - 1], h, h, k, v);
    }
  }

  /** Writing v at position k changes directional parity g exactly when group g contains k,
      and then by the old value XOR v. */
  lemma ParitiesUpdate(b: seq<Bit>, k: nat, v: Bit, g: nat)
    requires ParitiesDefined(|b|) && k < |b| && g < 4
    ensures ParitiesDefined(|b[k := v]|)
    ensures Parities(b[k := v])[g] == (Parities(b)[g] != (Membership(k, ISqrt(|b|))[g] && b[k] != v))
  {
    var h := ISqrt(|b|);
    MulLe(1, 3, h);
    if g == 0 {
      ColumnsXorUpdate(b, Q1And3, h, k, v);
    } else if g == 1 {
      ColumnsXorUpdate(b, Q2And4, h, k, v);
    } else if g == 2 {
      RowsXorUpdate(b, Q1And3, h, k, v);
    } else {
      RowsXorUpdate(b, Q2And4, h, k, v);
    }
  }

  lemma ColumnHitsOfFour(k: nat, c: nat)
    ensures ColumnHits(k, c, 4, 4) == (k == c || k == c + 4 || k == c + 8 || k == c + 12)
  {
    assert ColumnHits(k, c, 4, 1) == (k == c);
    assert ColumnHits(k, c, 4, 2) == (k == c || k == c + 4);
    assert ColumnHits(k, c, 4, 3) == (k == c || k == c + 4 || k == c + 8);
  }

  lemma RowHitsOfFour(k: nat, r: nat)
    ensures RowHits(k, r, 4, 4) == (4 * r <= k < 4 * r + 4)
  {
    assert RowHits(k, r, 4, 1) == (k == 4 * r);
    assert RowHits(k, r, 4, 2) == (4 * r <= k < 4 * r + 2);
    assert RowHits(k, r, 4, 3) == (4 * r <= k < 4 * r + 3);
  }

  /** In the 4 x 4 square, position k (row k / 4, column k % 4) is in the column groups
      selected by the two bits of its column and in the row groups selected by the two
      bits of its row. */
  lemma MembershipOfFour(k: nat)
    requires k < 16
    ensures Membership(k, 4)
      == [k % 4 == 1 || k % 4 == 3, k % 4 == 2 || k % 4 == 3, k / 4 == 1 || k / 4 == 3, k / 4 == 2 || k / 4 == 3]
  {
    assert Q1And3[..1] == [1] && Q2And4[..1] == [2] && [1][..0] == [] && [2][..0] == [];
    ColumnHitsOfFour(k, 1);
    ColumnHitsOfFour(k, 2);
    ColumnHitsOfFour(k, 3);
    RowHitsOfFour(k, 1);
    RowHitsOfFour(k, 2);
    RowHitsOfFour(k, 3);
    assert ColumnsHit(k, [1], 4) == ColumnHits(k, 1, 4, 4);
    assert ColumnsHit(k, [2], 4) == ColumnHits(k, 2, 4, 4);
    assert RowsHit(k, [1], 4) == RowHits(k, 1, 4, 4);
    assert RowsHit(k, [2], 4) == RowHits(k, 2, 4, 4);
    assert ColumnsHit(k, Q1And3, 4) == (ColumnHits(k, 1, 4, 4) != ColumnHits(k, 3, 4, 4));
    assert ColumnsHit(k, Q2And4, 4) == (ColumnHits(k, 2, 4, 4) != ColumnHits(k, 3, 4, 4));
    assert RowsHit(k, Q1And3, 4) == (RowHits(k, 1, 4, 4) != RowHits(k, 3, 4, 4));
    assert RowsHit(k, Q2And4, 4) == (RowHits(k, 2, 4, 4) != RowHits(k, 3, 4, 4));
  }

  /** The geometric fact the codec rests on: in the 4 x 4 square, reserved slot i (position
      2^i) lies in directional group i and in no other, and position 0 lies in no group. So
      writing parity i into slot i cancels group i and disturbs nothing else. */
  lemma SlotsAlignWithGroups()
    ensures forall i, g :: 0 <= i < 4 && 0 <= g < 4 ==> Membership([1, 2, 4, 8][i], 4)[g] == (i == g)
    ensures forall g :: 0 <= g < 4 ==> !Membership(0, 4)[g]
  {
    assert Membership(0, 4) == [false, false, false, false] by { MembershipOfFour(0); }
    assert Membership(1, 4) == [true, false, false, false] by { MembershipOfFour(1); }
    assert Membership(2, 4) == [false, true, false, false] by { MembershipOfFour(2); }
    assert Membership(4, 4) == [false, false, true, false] by { MembershipOfFour(4); }
    assert Membership(8, 4) == [false, false, false, true] by { MembershipOfFour(8); }
    forall i, g | 0 <= i < 4 && 0 <= g < 4
      ensures Membership([1, 2, 4, 8][i], 4)[g] == (i == g)
    {
      if i == 0 {
      } else if i == 1 {
      } else if i == 2 {
      } else {
      }
    }
  }

  /** Two distinct positions of the 4 x 4 square never lie in the same directional groups. */
  lemma MembershipDistinct(i: nat, j: nat)
    requires i < 16 && j < 16 && i != j
    ensures exists g :: 0 <= g < 4 && Membership(i, 4)[g] != Membership(j, 4)[g]
  {
    MembershipOfFour(i);
    MembershipOfFour(j);
    assert i == 4 * (i / 4) + i % 4 && j == 4 * (j / 4) + j % 4;
    if Membership(i, 4)[0] == Membership(j, 4)[0] && Membership(i, 4)[1] == Membership(j, 4)[1] {
      assert i % 4 == j % 4;
      if Membership(i, 4)[2] == Membership(j, 4)[2] {
        assert Membership(i, 4)[3] != Membership(j, 4)[3];
      }
    }
  }

  /** Computes the XOR of every cell of the block with a running accumulator. */
  method GetParityEntireBlock(block: seq<Bit>) returns (parity: Bit)
    ensures parity == Xor(block)
  {
    parity := false;
    for i := 0 to |block|
      invariant parity == Xor(block[..i])
    {
      assert block[..i + 1][..i] == block[..i];
      parity := parity != block[i];
    }
    assert block[..|block|] == block;
  }

  /** Computes the XOR of every cell of the given columns, column by column, top down. */
  method GetParityOfColumns(block: seq<Bit>, columns: seq<nat>) returns (parity: Bit)
    requires forall c :: c in columns ==> ColumnInBlock(|block|, c, ISqrt(|block|))
    ensures parity == ColumnsXor(block, columns, ISqrt(|block|))
  {
    parity := false;
    var height := ISqrt(|block|);
    for i := 0 to |columns|
      invariant parity == ColumnsXor(block, columns[..i], height)
    {
      var c := columns[i];
      assert columns[..i + 1][..i] == columns[..i];
      for j := 0 to height
        invariant parity == (ColumnsXor(block, columns[..i], height) != ColumnXor(block, c, height, j))
      {
        MulLe(j, height - 1, height);
        parity := parity != block[c + j * height];
      }
    }
    assert columns[..|columns|] == columns;
  }

  /** Computes the XOR of every cell of the given rows, row by row, left to right. */
  method GetParityOfRows(block: seq<Bit>, rows: seq<nat>) returns (parity: Bit)
    requires forall r :: r in rows ==> RowInBlock(|block|, r, ISqrt(|block|))
    ensures parity == RowsXor(block, rows, ISqrt(|block|))
  {
    parity := false;
    var height := ISqrt(|block|);
    for i := 0 to |rows|
      invariant parity == RowsXor(block, rows[..i], height)
    {
      var r := rows[i];
      assert rows[..i + 1][..i] == rows[..i];
      for j := 0 to height
        invariant parity == (RowsXor(block, rows[..i], height) != RowXor(block, r, height, j))
      {
        parity := parity != block[r * height + j];
      }
    }
    assert rows[..|rows|] == rows;
  }

  /** Computes the four directional parities, in the order of Parities. */
  method GetParities(block: seq<Bit>) returns (parities: seq<Bit>)
    requires ParitiesDefined(|block|)
    ensures parities == Parities(block)
  {
    MulLe(1, 3, ISqrt(|block|));
    var answerQ1 := GetParityOfColumns(block, Q1And3);
    var answerQ2 := GetParityOfColumns(block, Q2And4);
    var answerQ3 := GetParityOfRows(block, Q1And3);
    var answerQ4 := GetParityOfRows(block, Q2And4);
    parities := [answerQ1, answerQ2, answerQ3, answerQ4];
  }
}
