/** The encoder: data placement, writing of the directional and overall parities,
    validation of a received block, and what the scheme guarantees about them. */
module Encoding {
  import opened Geometry
  import opened Parity

  /** An encoder configured with its data and parity capacities; blocks have their sum as length. */
  datatype Encoder = Encoder(bitsOfData: nat, bitsOfParity: nat)

  /** The completed block an encoding hands to its caller. */
  datatype Message = Message(data: seq<Bit>)

  datatype Result<T, E> = Ok(value: T) | Err(error: E)

  function BlockLength(enc: Encoder): nat
  {
    enc.bitsOfData + enc.bitsOfParity
  }

  /** What encoding demands of its encoder and input so that every index it reads or
      writes is in bounds: a nonempty block whose column 3 and row 3 lie inside it, at most
      four parity slots (there are four directional parities), each a reserved position
      inside the block, and at least one input bit per data position. */
  predicate CanEncode(enc: Encoder, input: seq<Bit>)
  {
    var length := BlockLength(enc);
    var powers := GeneratePowers(2, length);
    1 <= length && ParitiesDefined(length)
    && enc.bitsOfParity <= 4 && enc.bitsOfParity <= |powers|
    && (forall j :: 0 <= j < enc.bitsOfParity ==> powers[j] < length)
    && DataCount(length, powers) <= |input|
  }

  /** The block after the placement walk: data position i holds input bit DataCount(i);
      position 0 and the reserved positions hold 0. */
  function Placed(length: nat, powers: seq<int>, input: seq<Bit>): (b: seq<Bit>)
    requires DataCount(length, powers) <= |input|
    ensures |b| == length
  {
    seq(length, i requires 0 <= i < length =>
      if IsDataPosition(i, powers) then
        DataCountAscending(i, length, powers);
        input[DataCount(i, powers)]
      else false)
  }

  lemma PlacedReserved(length: nat, powers: seq<int>, input: seq<Bit>, i: nat)
    requires DataCount(length, powers) <= |input| && i < length && !IsDataPosition(i, powers)
    ensures !Placed(length, powers, input)[i]
  {
  }

  /** b with parities[j] written at position powers[j], for j = 0, ..., n - 1 in turn. */
  function WriteSlots(b: seq<Bit>, powers: seq<int>, parities: seq<Bit>, n: nat): (r: seq<Bit>)
    requires n <= |powers| && n <= |parities|
    requires forall j :: 0 <= j < n ==> 0 <= powers[j] < |b|
    ensures |r| == |b|
  {
    if n == 0 then b else WriteSlots(b, powers, parities, n - 1)[powers[n - 1] := parities[n - 1]]
  }

  /** The block before its overall parity is written: data placed, then each directional
      parity of the data-filled block written into its reserved slot. */
  function Slotted(enc: Encoder, input: seq<Bit>): (b: seq<Bit>)
    requires CanEncode(enc, input)
    ensures |b| == BlockLength(enc)
  {
    var length := BlockLength(enc);
    var powers := GeneratePowers(2, length);
    PowersOfTwoAscending(length);
    var placed := Placed(length, powers, input);
    WriteSlots(placed, powers, Parities(placed), enc.bitsOfParity)
  }

  /** The encoded block: the slotted block with its overall parity written at position 0. */
  function EncodeBlock(enc: Encoder, input: seq<Bit>): (block: seq<Bit>)
    requires CanEncode(enc, input)
    ensures |block| == BlockLength(enc)
  {
    var slotted := Slotted(enc, input);
    slotted[0 := Xor(slotted)]
  }

  /** Encodes input into a freshly allocated block: places the data bits, writes the
      directional parities into the reserved slots and the overall parity into position 0.
      Always succeeds; the block has exactly the configured length. */
  method Encode(enc: Encoder, input: seq<Bit>) returns (r: Result<Message, string>)
    requires CanEncode(enc, input)
    ensures r.Ok? && |r.value.data| == enc.bitsOfData + enc.bitsOfParity
    ensures r == Ok(Message(EncodeBlock(enc, input)))
  {
    var length := enc.bitsOfData + enc.bitsOfParity;
    var block := new Bit[length](_ => false);
    var powers := GeneratePowers(2, length);
    PowersOfTwoAscending(length);
    ghost var placed := Placed(length, powers, input);

    var dataIndex := 0;
    for i := 1 to length
      invariant dataIndex == DataCount(i, powers)
      invariant forall k :: 0 <= k < length ==> block[k] == (k < i && placed[k])
    {
      if i !in powers {
        DataCountAscending(i, length, powers);
        block[i] := input[dataIndex];
        dataIndex := dataIndex + 1;
      }
    }
    assert block[..] == placed;

    var parities := GetParities(block[..]);
    for i := 0 to enc.bitsOfParity
      invariant block[..] == WriteSlots(placed, powers, parities, i)
    {
      block[powers[i]] := parities[i];
    }

    var zeroParity := GetParityEntireBlock(block[..]);
    block[0] := zeroParity;
    r := Ok(Message(block[..]));
  }

  /** A block passes validation when its four directional parities and its overall parity are all 0. */
  predicate Valid(block: seq<Bit>)
    requires ParitiesDefined(|block|)
  {
    (forall g :: 0 <= g < 4 ==> !Parities(block)[g]) && !Xor(block)
  }

  /** Recomputes the four directional parities and the overall parity of a received block
      and reports whether all five are 0. The block is a value and is left as it was. */
  method ValidateBlock(block: seq<Bit>) returns (ok: bool)
    requires ParitiesDefined(|block|)
    ensures ok <==> Valid(block)
  {
    var parities := GetParities(block);
    var zeroParity := GetParityEntireBlock(block);
    ok := (forall g :: 0 <= g < |parities| ==> !parities[g]) && !zeroParity;
  }

  /** block with the bit at position k inverted (the 1 - x of a 0/1 cell). */
  function Flip(block: seq<Bit>, k: nat): seq<Bit>
    requires k < |block|
  {
    block[k := !block[k]]
  }

  // ---------------------------------------------------------------------------------
  // Writing the parity slots

  lemma {:induction false} WriteSlotsElsewhere(b: seq<Bit>, powers: seq<int>, parities: seq<Bit>, n: nat, i: nat)
    requires n <= |powers| && n <= |parities|
    requires forall j :: 0 <= j < n ==> 0 <= powers[j] < |b|
    requires i < |b| && i !in powers[..n]
    ensures WriteSlots(b, powers, parities, n)[i] == b[i]
  {
    if n > 0 {
      assert powers[..n - 1] == powers[..n][..n - 1];
      assert powers[n - 1] in powers[..n];
      WriteSlotsElsewhere(b, powers, parities, n - 1, i);
    }
  }

  lemma {:induction false} WriteSlotsAt(b: seq<Bit>, powers: seq<int>, parities: seq<Bit>, n: nat, j: nat)
    requires n <= |powers| && n <= |parities|
    requires forall a :: 0 <= a < n ==> 0 <= powers[a] < |b|
    requires forall a, c :: 0 <= a < c < n ==> powers[a] < powers[c]
    requires j < n
    ensures WriteSlots(b, powers, parities, n)[powers[j]] == parities[j]
  {
    if j < n - 1 {
      WriteSlotsAt(b, powers, parities, n - 1, j);
    }
  }

  // ---------------------------------------------------------------------------------
  // Layout of an encoded block

  /** Data lands where the placement walk puts it: data position i holds input bit
      DataCount(i), and DataCount is ascending along the data positions. */
  lemma EncodePlacesData(enc: Encoder, input: seq<Bit>, i: nat)
    requires CanEncode(enc, input) && i < BlockLength(enc)
    requires IsDataPosition(i, GeneratePowers(2, BlockLength(enc)))
    ensures DataCount(i, GeneratePowers(2, BlockLength(enc))) < |input|
    ensures EncodeBlock(enc, input)[i] == input[DataCount(i, GeneratePowers(2, BlockLength(enc)))]
  {
    var length := BlockLength(enc);
    var powers := GeneratePowers(2, length);
    PowersOfTwoAscending(length);
    DataCountAscending(i, length, powers);
    var placed := Placed(length, powers, input);
    assert i !in powers[..enc.bitsOfParity];
    WriteSlotsElsewhere(placed, powers, Parities(placed), enc.bitsOfParity, i);
  }

  /** Directional parity j, computed on the data-filled block (whose reserved slots are
      still 0), is written at reserved position powers[j]. */
  lemma EncodeWritesParities(enc: Encoder, input: seq<Bit>, j: nat)
    requires CanEncode(enc, input) && j < enc.bitsOfParity
    ensures var length := BlockLength(enc);
            var powers := GeneratePowers(2, length);
            var placed := Placed(length, powers, input);
            0 < powers[j] < length
            && !placed[powers[j]]
            && EncodeBlock(enc, input)[powers[j]] == Parities(placed)[j]
  {
    var length := BlockLength(enc);
    var powers := GeneratePowers(2, length);
    PowersOfTwoAscending(length);
    var placed := Placed(length, powers, input);
    WriteSlotsAt(placed, powers, Parities(placed), enc.bitsOfParity, j);
  }

  /** Position 0 is untouched until the overall parity is computed, and it then receives that
      parity; so the XOR of the whole encoded block is 0, for every geometry. */
  lemma EncodedXorIsZero(enc: Encoder, input: seq<Bit>)
    requires CanEncode(enc, input)
    ensures !Slotted(enc, input)[0]
    ensures EncodeBlock(enc, input)[0] == Xor(Slotted(enc, input))
    ensures !Xor(EncodeBlock(enc, input))
  {
    var length := BlockLength(enc);
    var powers := GeneratePowers(2, length);
    PowersOfTwoAscending(length);
    var placed := Placed(length, powers, input);
    assert 0 !in powers[..enc.bitsOfParity];
    WriteSlotsElsewhere(placed, powers, Parities(placed), enc.bitsOfParity, 0);
    var slotted := Slotted(enc, input);
    XorUpdate(slotted, 0, Xor(slotted));
  }

  /** Input beyond the data positions is ignored: only the first DataCount(length) bits matter. */
  lemma ExtraInputIgnored(enc: Encoder, input: seq<Bit>)
    requires CanEncode(enc, input)
    ensures var n := DataCount(BlockLength(enc), GeneratePowers(2, BlockLength(enc)));
            CanEncode(enc, input[..n]) && EncodeBlock(enc, input[..n]) == EncodeBlock(enc, input)
  {
    var length := BlockLength(enc);
    var powers := GeneratePowers(2, length);
    var n := DataCount(length, powers);
    var p1 := Placed(length, powers, input);
    var p2 := Placed(length, powers, input[..n]);
    forall i | 0 <= i < length
      ensures p1[i] == p2[i]
    {
      if IsDataPosition(i, powers) {
        DataCountAscending(i, length, powers);
      }
    }
    assert p1 == p2;
  }

  // ---------------------------------------------------------------------------------
  // The 16-cell block of side 4

  /** Encoder::new(12, 4) accepts exactly the inputs of at least 11 bits. */
  lemma CanEncodeTwelveFour(input: seq<Bit>)
    ensures CanEncode(Encoder(12, 4), input) <==> 11 <= |input|
  {
    PowersOfSixteen();
    DataCountOfSixteen();
  }

  /** For a 16-cell block whose reserved slots hold 0, writing each directional parity into its
      slot makes all four directional parities 0. */
  lemma SlottedParitiesVanish(b: seq<Bit>)
    requires |b| == 16 && !b[1] && !b[2] && !b[4] && !b[8]
    ensures ParitiesDefined(16)
    ensures forall g :: 0 <= g < 4 ==> !Parities(WriteSlots(b, [1, 2, 4, 8], Parities(b), 4))[g]
  {
    PowersOfSixteen();
    SlotsAlignWithGroups();
    var powers := [1, 2, 4, 8];
    var p := Parities(b);
    var b1 := b[1 := p[0]];
    var b2 := b1[2 := p[1]];
    var b3 := b2[4 := p[2]];
    var b4 := b3[8 := p[3]];
    assert WriteSlots(b, powers, p, 1) == b1;
    assert WriteSlots(b, powers, p, 2) == b2;
    assert WriteSlots(b, powers, p, 3) == b3;
    assert WriteSlots(b, powers, p, 4) == b4;
    forall g | 0 <= g < 4
      ensures !Parities(b4)[g]
    {
      ParitiesUpdate(b, 1, p[0], g);
      ParitiesUpdate(b1, 2, p[1], g);
      ParitiesUpdate(b2, 4, p[2], g);
      ParitiesUpdate(b3, 8, p[3], g);
    }
  }

  /** For Encoder::new(12, 4) the reserved slots are 1, 2, 4, 8: the slotted block is the
      placed block with its four directional parities written at those positions.
      The second requires follows from the first (CanEncodeTwelveFour, DataCountOfSixteen,
      PowersOfSixteen); it is stated separately so that this proof does not have to unfold
      those facts itself, which keeps it well inside the solver's resource limit. */
  lemma SlottedOfSixteen(input: seq<Bit>)
    requires CanEncode(Encoder(12, 4), input)
    requires DataCount(16, [1, 2, 4, 8]) <= |input| && ParitiesDefined(16)
    ensures Slotted(Encoder(12, 4), input)
      == WriteSlots(Placed(16, [1, 2, 4, 8], input), [1, 2, 4, 8], Parities(Placed(16, [1, 2, 4, 8], input)), 4)
  {
    PowersOfSixteen();
  }

  /** For Encoder::new(12, 4), after each directional parity is written into its slot all
      four directional parities are 0. */
  lemma SlottedTwelveFour(input: seq<Bit>)
    requires 11 <= |input|
    ensures CanEncode(Encoder(12, 4), input)
    ensures ParitiesDefined(16)
    ensures forall g :: 0 <= g < 4 ==> !Parities(Slotted(Encoder(12, 4), input))[g]
  {
    CanEncodeTwelveFour(input);
    DataCountOfSixteen();
    PowersOfSixteen();
    SlottedOfSixteen(input);
    var powers := [1, 2, 4, 8];
    assert !IsDataPosition(1, powers) && !IsDataPosition(2, powers);
    assert !IsDataPosition(4, powers) && !IsDataPosition(8, powers);
    PlacedReserved(16, powers, input, 1);
    PlacedReserved(16, powers, input, 2);
    PlacedReserved(16, powers, input, 4);
    PlacedReserved(16, powers, input, 8);
    SlottedParitiesVanish(Placed(16, powers, input));
  }

  /** Round trip: every block produced by Encoder::new(12, 4) passes validation. */
  lemma RoundTrip(input: seq<Bit>)
    requires 11 <= |input|
    ensures CanEncode(Encoder(12, 4), input)
    ensures ParitiesDefined(16) && Valid(EncodeBlock(Encoder(12, 4), input))
  {
    var enc := Encoder(12, 4);
    SlottedTwelveFour(input);
    PowersOfSixteen();
    SlotsAlignWithGroups();
    var slotted := Slotted(enc, input);
    EncodedXorIsZero(enc, input);
    var block := EncodeBlock(enc, input);
    assert block == slotted[0 := Xor(slotted)];
    forall g | 0 <= g < 4
      ensures !Parities(block)[g]
    {
      ParitiesUpdate(slotted, 0, Xor(slotted), g);
      assert !Parities(slotted)[g] && !Membership(0, 4)[g];
    }
  }

  /** Flipping any single bit of a block that passes validation toggles its overall parity,
      so the flipped block fails validation. */
  lemma SingleFlipDetected(block: seq<Bit>, k: nat)
    requires ParitiesDefined(|block|) && Valid(block) && k < |block|
    ensures Xor(Flip(block, k))
    ensures !Valid(Flip(block, k))
  {
    XorUpdate(block, k, !block[k]);
  }

  /** Position 0 lies in no directional group: flipping it leaves the four directional
      parities of a 16-cell block as they were, and only the overall parity notices. */
  lemma FlipAtZeroKeepsDirectionalParities(block: seq<Bit>)
    requires |block| == 16
    ensures ParitiesDefined(16) && Parities(Flip(block, 0)) == Parities(block)
  {
    PowersOfSixteen();
    SlotsAlignWithGroups();
    var flipped := Flip(block, 0);
    forall g | 0 <= g < 4
      ensures Parities(flipped)[g] == Parities(block)[g]
    {
      ParitiesUpdate(block, 0, !block[0], g);
    }
  }

  /** Flipping positions 5 (row 1) and 9 (row 2) of a valid 16-cell block sets the parity of
      rows {1, 3}, so the block fails validation. */
  lemma FlipFiveAndNineDetected(block: seq<Bit>)
    requires |block| == 16 && ParitiesDefined(16) && Valid(block)
    ensures Parities(Flip(Flip(block, 5), 9))[2]
    ensures !Valid(Flip(Flip(block, 5), 9))
  {
    PowersOfSixteen();
    MembershipOfFour(5);
    MembershipOfFour(9);
    var once := Flip(block, 5);
    ParitiesUpdate(block, 5, !block[5], 2);
    ParitiesUpdate(once, 9, !once[9], 2);
  }

  /** Every two-bit corruption of a valid 16-cell block is detected: two distinct positions
      never lie in the same directional groups, so some directional parity becomes 1. */
  lemma DoubleFlipDetected(block: seq<Bit>, i: nat, j: nat)
    requires |block| == 16 && ParitiesDefined(16) && Valid(block)
    requires i < 16 && j < 16 && i != j
    ensures !Valid(Flip(Flip(block, i), j))
  {
    PowersOfSixteen();
    MembershipDistinct(i, j);
    var g :| 0 <= g < 4 && Membership(i, 4)[g] != Membership(j, 4)[g];
    var once := Flip(block, i);
    ParitiesUpdate(block, i, !block[i], g);
    ParitiesUpdate(once, j, !once[j], g);
    assert Parities(Flip(once, j))[g];
  }

  /** The input and the expected block of the known-answer vector (1 is true, 0 is false). */
  const KnownInput: seq<Bit> := [true, true, false, false, true, false, true, true, false, true, true]
  const KnownBlock: seq<Bit> :=
    [true, true, false, true, false, true, false, false, true, true, false, true, true, false, true, true]

  lemma KnownPlaced()
    ensures DataCount(16, [1, 2, 4, 8]) <= |KnownInput|
    ensures Placed(16, [1, 2, 4, 8], KnownInput)
      == [false, false, false, true, false, true, false, false, false, true, false, true, true, false, true, true]
  {
    DataCountOfSixteen();
  }

  lemma KnownParities()
    ensures ParitiesDefined(16)
    ensures Parities([false, false, false, true, false, true, false, false, false, true, false, true, true, false, true, true])
      == [true, false, false, true]
  {
    PowersOfSixteen();
    var b := [false, false, false, true, false, true, false, false, false, true, false, true, true, false, true, true];
    assert ColumnsXor(b, Q1And3, 4) == (ColumnXor(b, 1, 4, 4) != ColumnXor(b, 3, 4, 4));
    assert ColumnsXor(b, Q2And4, 4) == (ColumnXor(b, 2, 4, 4) != ColumnXor(b, 3, 4, 4));
    assert RowsXor(b, Q1And3, 4) == (RowXor(b, 1, 4, 4) != RowXor(b, 3, 4, 4));
    assert RowsXor(b, Q2And4, 4) == (RowXor(b, 2, 4, 4) != RowXor(b, 3, 4, 4));
  }

  lemma KnownOverallParity()
    ensures Xor([false, true, false, true, false, true, false, false, true, true, false, true, true, false, true, true])
  {
    var r0, r1, r2, r3 := [false, true, false, true], [false, true, false, false], [true, true, false, true], [true, false, true, true];
    XorOfFour(false, true, false, true);
    XorOfFour(false, true, false, false);
    XorOfFour(true, true, false, true);
    XorOfFour(true, false, true, true);
    XorConcat(r0, r1);
    XorConcat(r0 + r1, r2);
    XorConcat(r0 + r1 + r2, r3);
    assert r0 + r1 + r2 + r3
      == [false, true, false, true, false, true, false, false, true, true, false, true, true, false, true, true];
  }

  lemma KnownSlotted()
    ensures WriteSlots([false, false, false, true, false, true, false, false, false, true, false, true, true, false, true, true],
                       [1, 2, 4, 8], [true, false, false, true], 4)
      == [false, true, false, true, false, true, false, false, true, true, false, true, true, false, true, true]
  {
    var b := [false, false, false, true, false, true, false, false, false, true, false, true, true, false, true, true];
    var powers, parities := [1, 2, 4, 8], [true, false, false, true];
    assert WriteSlots(b, powers, parities, 1) == b[1 := true];
    assert WriteSlots(b, powers, parities, 2) == b[1 := true][2 := false];
    assert WriteSlots(b, powers, parities, 3) == b[1 := true][2 := false][4 := false];
  }

  /** Writing the overall parity 1 at position 0 of the known pre-parity block gives the expected block. */
  lemma KnownOverallParityWritten()
    ensures [false, true, false, true, false, true, false, false, true, true, false, true, true, false, true, true][0 := true]
      == KnownBlock
  {
    var slotted := [false, true, false, true, false, true, false, false, true, true, false, true, true, false, true, true];
    forall i | 0 <= i < 16
      ensures slotted[0 := true][i] == KnownBlock[i]
    {
    }
  }

  /** The known answer: Encoder::new(12, 4) encodes 1,1,0,0,1,0,1,1,0,1,1 as
      1,1,0,1, 0,1,0,0, 1,1,0,1, 1,0,1,1. */
  lemma KnownAnswer()
    ensures CanEncode(Encoder(12, 4), KnownInput)
    ensures EncodeBlock(Encoder(12, 4), KnownInput) == KnownBlock
  {
    CanEncodeTwelveFour(KnownInput);
    DataCountOfSixteen();
    PowersOfSixteen();
    SlottedOfSixteen(KnownInput);
    KnownPlaced();
    KnownParities();
    KnownSlotted();
    KnownOverallParity();
    KnownOverallParityWritten();
    var slotted := [false, true, false, true, false, true, false, false, true, true, false, true, true, false, true, true];
    assert Slotted(Encoder(12, 4), KnownInput) == slotted;
    assert EncodeBlock(Encoder(12, 4), KnownInput) == slotted[0 := true];
  }
}
