# Parity block codec, modelled in Dafny

This project models a small Hamming-style codec over a block of 0/1 cells. The block is
laid out row by row in a square whose side is the integer square root of its length. For
the standard configuration, `Encoder::new(12, 4)`, that is a 16-cell block in a 4 x 4
square. An encoding is built in three steps:

- The data bits are placed, in order, at every position other than 0 and the reserved
  positions `GeneratePowers(2, length)`: the powers of two 2^0, ..., 2^(side - 1). For the
  16-cell block these are 1, 2, 4 and 8.
- Four directional parities are computed on the data-filled block:
  - columns {1, 3}
  - columns {2, 3}
  - rows {1, 3}
  - rows {2, 3}

  They are written into the reserved slots 1, 2, 4 and 8.
- The XOR of the whole block is written into position 0.

Validation recomputes the four directional parities and the overall parity, and accepts a
block exactly when all five are 0.

Cells are modelled as `bool` (`Bit`): 0 is `false`, XOR is `!=`, and the flip `1 - x` is
`!x`. The project has three modules:

- `Geometry` (`geometry.dfy`): the integer square root, the reserved positions
  (`GeneratePowers`), and the data counter of the placement walk (`DataCount`).
- `Parity` (`parity.dfy`): the XOR folds that specify the source's loops, the
  `GetParity…` methods proved against them, group membership, and how a single write
  changes each parity.
- `Encoding` (`encoding.dfy`):
  - `Encode`, which fills an array exactly as the source fills its vector, proved against
    the specification function `EncodeBlock`.
  - `ValidateBlock`.
  - The lemmas: layout, round trip, error detection and the known-answer vector.

Encoding indexes its vector without checks and panics when an index is out of range.
`CanEncode` states exactly the conditions under which no index goes out of range:

- the block is nonempty;
- column 3 and row 3 lie inside the block;
- there are at most four parity slots, each inside the block;
- there is an input bit for every data position.

For `Encoder::new(12, 4)`, `CanEncode` holds exactly when the input has at least 11 bits
(`CanEncodeTwelveFour`).

Two facts about the 16-cell block follow from its geometry:

- Position 0 lies in no directional group, so a flip there leaves all four directional
  parities unchanged and only the overall parity notices it
  (`FlipAtZeroKeepsDirectionalParities`).
- Distinct positions differ in group membership, so every two-bit corruption of a valid
  block is detected (`DoubleFlipDetected`), the flip of positions 5 and 9 among them.

## Model

| member | source | states |
|---|---|---|
| Geometry.ISqrt | src/lib.rs:71 | the block side is the largest s with s * s <= length, the value the float square root truncates to |
| Geometry.GeneratePowers | src/lib.rs:91-94 | one reserved position per unit of the side (isqrt(n) of them), the i-th being base^i |
| Geometry.IsDataPosition | src/lib.rs:24-25 | a position receives a data bit exactly when it is not 0 and not in the reserved list, the `!powers.contains(&i)` test of the walk from 1 |
| Geometry.DataCount | src/lib.rs:23-27 | the value of `data_index` when the placement walk reaches position i: the number of data positions among 1, ..., i - 1 |
| Parity.Xor | src/lib.rs:49-55 | the XOR of every cell of a block, accumulated from the first cell to the last as the loop does |
| Parity.ColumnXor | src/lib.rs:73-75 | the XOR of the first n cells c + j * side of column c, top down, as the inner loop accumulates it |
| Parity.ColumnsXor | src/lib.rs:69-78 | the XOR of every cell of the listed columns, column by column in list order |
| Parity.RowXor | src/lib.rs:84-86 | the XOR of the first n cells r * side + j of row r, left to right, as the inner loop accumulates it |
| Parity.RowsXor | src/lib.rs:80-89 | the XOR of every cell of the listed rows, row by row in list order |
| Parity.ParitiesDefined | src/lib.rs:71-75 | the block lengths on which reading column 3 and row 3 of the square stays in bounds, i.e. on which computing the parities does not panic |
| Encoding.BlockLength | src/lib.rs:17 | the block length is bits_of_data + bits_of_parity |
| Encoding.CanEncode | src/lib.rs:19-38 | the inputs on which encode indexes only inside its vectors: a nonempty block, parities defined, at most four slots each inside the block, an input bit for every data position |
| Encoding.Placed | src/lib.rs:19-29 | the block after the placement walk, of the configured length: data position i holds input[DataCount(i)], every other position 0 |
| Encoding.WriteSlots | src/lib.rs:33-35 | the block after the first n iterations of the slot loop, of unchanged length: parities[j] written at powers[j] for j < n, in order |
| Encoding.Slotted | src/lib.rs:19-35 | the block before the overall parity is written, of the configured length: the placed block with each directional parity of the placed block written into its slot |
| Encoding.EncodeBlock | src/lib.rs:16-41 | the encoded block as a value, of the configured length: the slotted block with its XOR written at position 0; the layout and round-trip lemmas are stated about it |
| Encoding.Valid | src/lib.rs:43-47 | the blocks validation accepts: all four directional parities and the overall parity are 0 |
| Encoding.Flip | src/lib.rs:150 | the block with one cell inverted, the `1 - x` corruption the tests apply at src/lib.rs:150 and 168-169 |
| Geometry.PowersOfTwoAscending | src/lib.rs:91-94 | the powers of two generated are all >= 1 and strictly ascending, so none is position 0 and no two slots coincide |
| Geometry.PowersOfSixteen | src/lib.rs:21 | for a 16-cell block the side is 4 and the reserved positions are 1, 2, 4, 8 |
| Geometry.DataCountAscending | src/lib.rs:23-29 | the data counter strictly increases past each data position, so data bits are taken in ascending input order |
| Geometry.DataCountOnto | src/lib.rs:23-29 | every input index below the final counter is consumed by some data position |
| Geometry.DataCountOfSixteen | src/lib.rs:23-29 | in a 16-cell block positions 3, 5, 6, 7, 9..15 take input bits 0..10 and exactly 11 bits are consumed |
| Parity.XorUpdate | src/lib.rs:49-55 | writing v at position k toggles the XOR of the block exactly when the old cell differs from v |
| Parity.XorConcat | src/lib.rs:49-55 | the running XOR of a concatenation is the XOR of the two parts |
| Parity.Parities | src/lib.rs:57-67 | exactly four directional parities, in the order columns {1,3}, columns {2,3}, rows {1,3}, rows {2,3} |
| Parity.ColumnXorUpdate | src/lib.rs:69-78 | writing position k changes a column's running XOR exactly when k is one of the visited cells and the value changes |
| Parity.RowXorUpdate | src/lib.rs:80-89 | writing position k changes a row's running XOR exactly when k is one of the visited cells and the value changes |
| Parity.ColumnsXorUpdate | src/lib.rs:69-78 | the same for the XOR over a list of columns, counting k once per listed column that holds it |
| Parity.RowsXorUpdate | src/lib.rs:80-89 | the same for the XOR over a list of rows |
| Parity.ParitiesUpdate | src/lib.rs:57-67 | writing v at position k toggles directional parity g exactly when group g contains k and the value changes |
| Parity.MembershipOfFour | src/lib.rs:57-67 | in the 4 x 4 square, position k is in the column groups given by the two bits of k % 4 and in the row groups given by the two bits of k / 4 |
| Parity.SlotsAlignWithGroups | src/lib.rs:31-35 | slot 2^i lies in directional group i and no other, and position 0 lies in no group |
| Parity.MembershipDistinct | src/lib.rs:57-67 | two distinct positions of the 4 x 4 square differ in membership of some directional group |
| Parity.GetParityEntireBlock | src/lib.rs:49-55 | the loop returns the XOR of every cell of the block |
| Parity.GetParityOfColumns | src/lib.rs:69-78 | the nested loop returns the XOR of every cell of the listed columns, indices c + j * side |
| Parity.GetParityOfRows | src/lib.rs:80-89 | the nested loop returns the XOR of every cell of the listed rows, indices r * side + j |
| Parity.GetParities | src/lib.rs:57-67 | returns the four directional parities of the block, in order |
| Encoding.PlacedReserved | src/lib.rs:19-29 | position 0 and every reserved position still hold 0 after placement |
| Encoding.WriteSlotsElsewhere | src/lib.rs:33-35 | writing the parity slots leaves every position that is not one of the written slots untouched |
| Encoding.WriteSlotsAt | src/lib.rs:33-35 | after the slot loop, reserved position powers[j] holds directional parity j |
| Encoding.Encode | src/lib.rs:16-41 | encoding always succeeds, returns a block of length bits_of_data + bits_of_parity, and its array ends equal to EncodeBlock |
| Encoding.ValidateBlock | src/lib.rs:43-47 | accepts exactly the blocks that satisfy Valid: all four directional parities and the overall parity are 0 |
| Encoding.EncodePlacesData | src/lib.rs:23-29 | in the encoded block, data position i holds input bit DataCount(i), which exists |
| Encoding.EncodeWritesParities | src/lib.rs:31-35 | reserved position powers[j] is inside the block and held 0 after placement; it receives parity j of the data-filled block |
| Encoding.EncodedXorIsZero | src/lib.rs:37-38 | position 0 holds 0 until the overall parity is written there, so the XOR of every encoded block is 0 |
| Encoding.ExtraInputIgnored | src/lib.rs:23-29 | bits beyond the data positions do not affect the encoding |
| Encoding.CanEncodeTwelveFour | src/lib.rs:120-122 | Encoder::new(12, 4) can encode an input exactly when it has at least 11 bits |
| Encoding.SlottedParitiesVanish | src/lib.rs:31-35 | in a 16-cell block with zero slots, writing each directional parity into its slot zeroes all four |
| Encoding.SlottedOfSixteen | src/lib.rs:21-35 | for Encoder::new(12, 4) the pre-parity block is the placed block with its four parities written at 1, 2, 4, 8 |
| Encoding.SlottedTwelveFour | src/lib.rs:31-35 | for Encoder::new(12, 4) all four directional parities are 0 once the slots are written |
| Encoding.RoundTrip | src/lib.rs:180-211 | every block Encoder::new(12, 4) produces from an 11-bit (or longer) input passes validation |
| Encoding.SingleFlipDetected | src/lib.rs:142-157 | flipping any one cell of a valid block sets the overall parity, so validation rejects it |
| Encoding.FlipAtZeroKeepsDirectionalParities | src/lib.rs:148-151 | flipping position 0 of a 16-cell block leaves the four directional parities unchanged |
| Encoding.FlipFiveAndNineDetected | src/lib.rs:159-177 | flipping positions 5 and 9 of a valid 16-cell block sets the rows {1,3} parity, so validation rejects it |
| Encoding.DoubleFlipDetected | src/lib.rs:159-177 | flipping any two distinct cells of a valid 16-cell block makes validation reject it |
| Encoding.KnownPlaced | src/lib.rs:119-139 | placement of the known-answer input gives the expected data-filled block |
| Encoding.KnownParities | src/lib.rs:119-139 | the four directional parities of that block are 1, 0, 0, 1 |
| Encoding.KnownSlotted | src/lib.rs:119-139 | writing them into slots 1, 2, 4, 8 gives the expected pre-parity block |
| Encoding.KnownOverallParity | src/lib.rs:119-139 | the XOR of that block is 1 |
| Encoding.KnownOverallParityWritten | src/lib.rs:119-139 | writing the overall parity 1 at position 0 of the pre-parity block gives the expected block |
| Encoding.KnownAnswer | src/lib.rs:119-139 | Encoder::new(12, 4) encodes 1,1,0,0,1,0,1,1,0,1,1 as 1,1,0,1, 0,1,0,0, 1,1,0,1, 1,0,1,1 |

## Left out

- `create_random_message` (src/lib.rs:109-112) draws from a random-number generator. The
  random inputs of the tests become universally quantified inputs (`RoundTrip`,
  `DoubleFlipDetected`).
- The float square root `(len as f64).sqrt() as usize` is modelled as the exact integer
  square root `ISqrt`. Rounding error of `f64` on very large lengths is not modelled.
- Cells are `i32` in the source. The model admits only 0 and 1 (`bool`), which is all the
  encoder ever writes or reads from valid input. Blocks that hold other integers are not
  modelled.
- GeneratePowers: `base.pow(i)` in `i32` panics (debug) or wraps (release) from 2^31 on,
  which happens for blocks of 1024 cells or more. The model computes unbounded powers.
- The `usize` and `i32` conversions (`length as i32`, `i as i32`, `powers[i] as usize`)
  and the overflow of `bits_of_data + bits_of_parity` are not modelled. Lengths are
  unbounded naturals.
- Encode: when `CanEncode` fails, the source panics on an out-of-range index. The model
  makes `CanEncode` a precondition instead of modelling the panic. The source never
  returns `Err`, and neither does the model.
- ValidateBlock, GetParities, GetParityOfColumns, GetParityOfRows: the source panics when
  column 3 or row 3 does not lie inside the block, e.g. `validate_block` on a 9-cell block
  reads `block[3 + 2 * 3]` at src/lib.rs:74. The model makes this in-bounds condition
  (`ParitiesDefined`, `ColumnInBlock`, `RowInBlock`) a precondition instead of modelling
  the panic.
- `Encoder::new` and `Message::new` only store their arguments. They are the datatype
  constructors `Encoder` and `Message`.
- The `println!` of the `Err` branches in the tests is output only.
- RoundTrip, SlottedTwelveFour, DoubleFlipDetected: proved for the 16-cell block of
  `Encoder::new(12, 4)`, the configuration the tests use. The group constants {1, 3} and
  {2, 3} cover a square of side 4 only, so other geometries are not covered by these lemmas.
