# Eternity II mosaic enumeration and SAT encoding, in Dafny

This project models the combinatorial core of `eternity-ii-sat`, a toolkit for the
Eternity II edge-matching puzzle. The model covers:

- **Primitives.** The 256 tiles and their four sides, the quarter-turn rotations and the
  23 edge colours. The tile catalog is the 1024-letter `EDGES` string, carried here as a
  constant.
- **Edges.** Sequences of colours read clockwise around a mosaic, with reversal
  and the flipped comparison.
- **Mosaics.** Rectangular blocks of rotated tiles: dense arrays, packed 2x2 quads, and
  zero-copy rotated views. The model covers their boundary edges, equality and ordering.
- **Mosaic sets.** Append-only lists of mosaics, with an index from each rotated view's
  right (and, for rectangles, top) edge to the (slot, rotation) entries that have it.
  Queries and edge iteration hand out rotated views whose side edge is the key.
- **The doubling join.**
  - Canonical classification of single tiles.
  - The splice that joins two squares into a rectangle, or two rectangles into a square,
    and refuses any tile used twice.
  - The least-tile tie-break.
  - The memoised join that pairs an edge with its reversal in the other set.
  - The six fixed builds of corners, edges and centres.
- **Set builders.** The four accumulate-then-merge strategies:
  - counting;
  - counting with the first sample;
  - in-memory square sets;
  - in-memory rectangular sets.

  Their shards report through an mpsc channel.
- **SAT encoding.** DIMACS literals, the clause store, the at-most-one and at-least-one
  constraints, and the numbering of the puzzle's variables with its decoder.

The Rust compile-time sizes (`N`, `W`, `H`, `SHORT`, `LONG`) are ordinary parameters.
`LONG == 2 * SHORT` is a precondition, written by passing `2 * s` for `LONG`.

Pure code is written as functions with lemmas about them. Code that fills a buffer or
changes a struct in a loop is written as a method with loop invariants, proved against a
specification function:

- the edge extractors and `reversed`;
- `to_array_mosaic`, `eq` and `cmp`;
- `combine_*` and `min_rotated_tile`;
- `insert` and `extend` of both set classes;
- the joins;
- the shard and builder classes;
- the `Clauses` methods.

A set class keeps its members in a `seq` field and its edge index in a `map<Edge,
set<Entry>>` field. Both are reassigned by `Insert` and `Extend`, which keep `Valid()`.
`Valid()` says that the index is sound, complete, and has no empty bucket.
`SquareSets.IndexIsDetermined` and `RectangleSets.IndexIsDetermined` show that such an
index is a function of the members. So `mosaics == old(mosaics) + [m]` fixes the whole new
state.

The `RotatedSquareMosaic` remap is `SquareViewSource`. Adding a view's rotation to each cell
is inside `Get`, in `mosaic.dfy`.

Modules, one per file:

| module | file |
|---|---|
| `Sides` | `sides.dfy` |
| `Catalog` | `catalog.dfy` |
| `Tiles` | `tiles.dfy` |
| `Rectangular` | `rectangular.dfy` |
| `Edges` | `edge.dfy` |
| `Mosaics` | `mosaic.dfy` |
| `Collections` | `collections.dfy` |
| `SquareSets` | `square_set.dfy` |
| `RectangleSets` | `rectangle_set.dfy` |
| `Canonical` | `canonical.dfy` |
| `Combine` | `combine.dfy` |
| `Join` | `join.dfy` |
| `Builds` | `builds.dfy` |
| `Channels` | `channel.dfy` |
| `Counting` | `counting.dfy` |
| `CountingSampling` | `counting_sampling.dfy` |
| `InMemorySquare` | `in_memory_square.dfy` |
| `InMemoryRectangular` | `in_memory_rectangular.dfy` |
| `Sat` | `sat.dfy` |

## Model

| member | source | states |
|---|---|---|
| Sides.SideFromInt | src/lib.rs:17-25 | decoding a 2-bit code gives the side whose code it is |
| Sides.RotationFromInt | src/lib.rs:41-49 | decoding a 2-bit code gives the rotation whose code it is |
| Sides.CodesRoundTrip | src/lib.rs:17-49 | encoding a side or a rotation as its 2-bit code and decoding it gives it back |
| Sides.TransformIsWrappingAdd | src/lib.rs:32-38 | `transform` adds the rotation's code to the side's code modulo 4, and `reverse_transform` subtracts it modulo 4 |
| Sides.TransformInverse | src/lib.rs:32-38 | `transform` and `reverse_transform` by the same rotation undo each other, in either order |
| Sides.TransformTable | src/lib.rs:306-351 | the full sixteen-entry side/rotation table of the `rotate_side` test |
| Sides.AddIsWrappingAdd | src/lib.rs:51-57 | rotation addition is addition of the 2-bit codes modulo 4 |
| Sides.RotationGroup | src/lib.rs:51-63 | Identity is neutral on both sides, a quarter turn left plus a quarter turn right is Identity, two half turns are Identity, and addition commutes and associates |
| Sides.TransformAdd | src/lib.rs:32-34 | turning a side by `a + b` is turning it by `a` and then by `b` |
| Sides.ReverseTransformShift | src/lib.rs:36-38 | undoing `c + r` on a side already turned by `r` is undoing `c` |
| Sides.RotationFromRightCarriesRight | src/lib.rs:28-30 | `rotation_from_right(s)` is the rotation that carries Right onto `s` |
| Tiles.ColorPredicates | src/lib.rs:110-116 | `is_border` holds exactly for value 0, `is_valid_non_border_color` exactly for values 1 to 22, and no colour satisfies both |
| Tiles.FromByteCharRoundTrip | src/lib.rs:118-136 | `from_byte_char` accepts exactly the bytes 'a' to 'w'; `to_byte_char` inverts it; a colour survives `to_byte_char` then `from_byte_char` exactly when it is at most 22 |
| Tiles.ColorIter | src/lib.rs:104-108 | `Color::iter` yields 23 colours |
| Tiles.ColorIterRendering | src/lib.rs:149-156 | the colours of `Color::iter`, rendered with `to_char`, spell "abcdefghijklmnopqrstuvw" |
| Tiles.TileValues | src/lib.rs:184-186 | `Tile::values` lists the 256 tiles, tile `i` at position `i` |
| Tiles.BuildParsedEdges | src/lib.rs:172-182 | the table build fills all 1024 slots: slot `i` holds the decoded catalog byte `i`, which for the catalog is the parsed edge `i` |
| Tiles.TileColorIsParsedEdge | src/lib.rs:188-194 | `Tile::color(side)` is entry `4 * tile + side` of the parsed table |
| Tiles.TileColorDecodes | src/lib.rs:170-194 | every tile colour is the decoding of its catalog letter, and is at most 22 |
| Tiles.TileColorLetter | src/lib.rs:170-194 | rendering a tile colour gives back its catalog letter |
| Tiles.TileColorExamples | src/lib.rs:372-385 | tile 0 reads j, a, a, r and tile 128 reads h, b, a, f on its right, top, left and bottom sides |
| Tiles.AddRotation | src/lib.rs:237-251 | adding a rotation to a rotated tile leaves its tile unchanged |
| Tiles.RotatedColorCommutes | src/lib.rs:224-226 | a rotated tile turned further by `r` shows on side `s + r` the colour it showed on side `s` |
| Tiles.ExteriorMaskRotates | src/lib.rs:228-234 | the mask bit of a side is set exactly when that side's colour is EXTERIOR, and turning the tile moves the bit along with the side |
| Tiles.RotatedColorExamples | src/lib.rs:353-370 | tile 0 reads "jaar", "rjaa", "arja" and "aarj" (right, top, left, bottom) under the four rotations |
| Tiles.RotatedTileOrder | src/lib.rs:207-222 | the derived order on (tile, rotation) is a total order, and MAX = (255, QuarterTurnRight) is above every rotated tile |
| Tiles.MinRotatedTileIsMin | src/lib.rs:207-222 | the smaller of two rotated tiles is one of them and is below both |
| Catalog.CatalogWellFormed | src/lib.rs:170 | every tile's four catalog bytes are colour letters |
| Rectangular.AdditionsAreWrapping | src/rectangular.rs:38-71 | adding a rectangular rotation to a vertical side, to a horizontal side, or to another rectangular rotation is 1-bit addition modulo 2 |
| Rectangular.ToSquareIsEmbedding | src/rectangular.rs:102-114 | `to_square` sends Identity to Identity and HalfTurn to HalfTurn, is one-to-one, and turns rectangular addition into square addition |
| Rectangular.AddIsSquareTransform | src/rectangular.rs:30-71 | a vertical or horizontal side turned by a rectangular rotation is the square side turned by that rotation's `to_square` |
| Rectangular.RotationFromCarries | src/rectangular.rs:25-55 | `rotation_from_right` and `rotation_from_top` carry Right and Top onto the given side, and agree with the square `rotation_from_right` |
| Rectangular.ToRectangularRoundTrip | src/rectangular.rs:83-92 | `to_rectangular` sends Right and Left to Vertical and Top and Bottom to Horizontal, and `to_square` maps each back to the original side |
| Edges.DefaultEdge | src/edge.rs:42-46 | the default edge is `N` EXTERIOR colours |
| Edges.Reversed | src/edge.rs:25-31 | the loop leaves the reversal of the edge: position `i` holds the colour at `N - 1 - i` |
| Edges.ReversalInvolution | src/edge.rs:25-31 | reversing twice gives the edge back |
| Edges.ReversalAppend | src/edge.rs:25-31 | the reversal of a concatenation is the reversed parts in swapped order |
| Edges.FlipEqIsReversal | src/edge.rs:33-35 | `flip_eq(a, b)` holds exactly when `a` is the reversal of `b`, and it is symmetric |
| Edges.FromByteString | src/edge.rs:17-23 | the edge is defined exactly when every byte is a colour letter, and then position `i` is the colour of byte `i` |
| Edges.ByteStringRoundTrip | src/edge.rs:17-23 | an edge of colours up to 22, written as letters, reads back as the same edge |
| Edges.RenderIsByteString | src/edge.rs:68-75 | the displayed form has one character per colour, in index order |
| Edges.RenderInjective | src/edge.rs:68-75 | two edges that display the same letters are the same edge |
| Mosaics.SquareViewSource | src/mosaic.rs:385-392 | the cell remap of each square rotation keeps every position inside the mosaic |
| Mosaics.RectangularViewSource | src/mosaic.rs:256-261 | the half-turn remap keeps every position inside the mosaic |
| Mosaics.EdgeCell | src/mosaic.rs:22-54 | each position read along a side, in that side's direction, is a cell of the mosaic |
| Mosaics.VerticalEdge | src/mosaic.rs:22-37 | the loop yields the right column's right colours top to bottom, or the left column's left colours bottom to top |
| Mosaics.HorizontalEdge | src/mosaic.rs:39-54 | the loop yields the top row's top colours left to right, or the bottom row's bottom colours right to left |
| Mosaics.SquareEdge | src/mosaic.rs:86-91 | a square mosaic's edge on any side is the vertical or horizontal edge of that side |
| Mosaics.ToArrayMosaic | src/mosaic.rs:72-83 | the copy is a dense mosaic with the same cell at every position, and copying a dense mosaic gives it back unchanged |
| Mosaics.PackedGetUnpacks | src/mosaic.rs:582-589 | reading cell (x, y) of a packed mosaic, at quad `[y / 2][x / 2]` and slot `2 * (y % 2) + x % 2`, gives back the cell that was packed there |
| Mosaics.CellsEqualIffSameCells | src/mosaic.rs:297-306 | two mosaics have equal row-major cell grids exactly when they hold the same cell at every position |
| Mosaics.Eq | src/mosaic.rs:434-443 | the early-return double loop answers true exactly when every cell is equal |
| Mosaics.Cmp | src/mosaic.rs:455-465 | the early-return double loop gives the lexicographic comparison of the row-major cell grids |
| Mosaics.CompareRowsIsOrder | src/mosaic.rs:325-336 | comparing two rows gives Equal exactly when they are equal, and swapping them flips the answer |
| Mosaics.CompareGridsIsOrder | src/mosaic.rs:325-336 | comparing two grids gives Equal exactly when they are equal, and swapping them flips the answer |
| Mosaics.CompareRowsAt | src/mosaic.rs:325-336 | the first differing cell of two rows decides their comparison |
| Mosaics.CompareGridsAt | src/mosaic.rs:325-336 | the first differing row of two grids decides their comparison |
| Mosaics.SquareViewEdge | src/mosaic.rs:385-392 | a square view turned by `r` has, on side `s + r`, the edge the backing mosaic has on side `s` |
| Mosaics.RectangularViewEdge | src/mosaic.rs:256-261 | a rectangular view turned by `r` has, on side `s + to_square(r)`, the edge the backing mosaic has on side `s` |
| Mosaics.SquareViewEdgeCell | src/mosaic.rs:385-392 | the remap sends the `i`-th cell along side `s + r` to the `i`-th cell along side `s` |
| Mosaics.RectangularViewEdgeCell | src/mosaic.rs:256-261 | the half-turn remap sends the `i`-th cell along a turned side to the `i`-th cell along the original side |
| Mosaics.SameCellsSameEdges | src/mosaic.rs:22-54 | mosaics with the same cells have the same edges |
| Mosaics.SquareViewSourceCompose | src/mosaic.rs:385-392 | remapping by `b` and then by `a` is remapping by `a + b` |
| Mosaics.SquareViewCompose | src/mosaic.rs:414-419 | a view of a view holds the same cells as one view by the sum of the rotations |
| Mosaics.WithSquareRotationIsView | src/mosaic.rs:414-419 | `with_square_rotation` holds the same cells as the view of the backing mosaic turned by the rotation |
| Mosaics.WithRectangularRotationIsView | src/mosaic.rs:398-406 | `with_rectangular_rotation` holds the same cells as the rectangular view of the backing mosaic turned by the rotation |
| Mosaics.SquareExampleEdges | src/mosaic.rs:688-703 | the 2x2 test mosaic has edges "fi", "aa", "aa" and "or" |
| Mosaics.SquareExampleLetters | src/mosaic.rs:688-703 | the catalog letters the 2x2 test mosaic's edges are made of |
| Mosaics.RotatedSquareExampleCells | src/mosaic.rs:658-755 | the cells of the 2x2 test mosaic's four rotated views |
| Mosaics.QuarterLeftTurnedSquareExampleEdges | src/mosaic.rs:705-720 | the quarter-left view's right edge is the backing bottom edge "or", and so on around |
| Mosaics.HalfTurnedSquareExampleEdges | src/mosaic.rs:722-737 | the half-turn view's edges are "aa", "or", "fi" and "aa" |
| Mosaics.QuarterRightTurnedSquareExampleEdges | src/mosaic.rs:739-754 | the quarter-right view's edges are "aa", "aa", "or" and "fi" |
| Mosaics.RectangleExampleEdges | src/mosaic.rs:809-840 | the 4x3 test mosaic's right edge is "ftd" and its bottom edge "mdtf" |
| Mosaics.RectangleExampleExteriorEdges | src/mosaic.rs:809-840 | the 4x3 test mosaic's top edge is "aaaa" and its left edge "aaa" |
| Mosaics.RectangleExampleLetters | src/mosaic.rs:809-840 | the catalog letters of the 4x3 test mosaic's right column |
| Mosaics.RectangleExampleBottomLetters | src/mosaic.rs:809-840 | the catalog letters of the 4x3 test mosaic's bottom row |
| Mosaics.RectangleExampleExteriorLetters | src/mosaic.rs:809-840 | the catalog letters of the 4x3 test mosaic's exterior sides |
| Mosaics.RotatedRectangleExamples | src/mosaic.rs:842-873 | the half-turned 4x3 view reads its corners from the opposite corners with HalfTurn added, and its right edge is the backing left edge |
| SquareSets.SquareMosaicSet.constructor | src/set/square.rs:29-34 | a new set has no members and no keys |
| SquareSets.SquareMosaicSet.Insert | src/set/square.rs:66-77 | the mosaic becomes the last member, at slot old `len`; the index stays sound, complete and free of empty buckets, so it now files the new slot under each of its four rotated right edges |
| SquareSets.InsertStep | src/set/square.rs:69-74 | filing (slot, r) under the new member's rotated right edge keeps the index sound, lists the entry, and keeps every earlier entry |
| SquareSets.IndexIsDetermined | src/set/square.rs:66-91 | two sound and complete right-edge indexes of the same members are equal |
| SquareSets.SquareMosaicSet.Extend | src/set/square.rs:79-91 | the other set's members follow the existing ones, so `len` is the sum; the merged index is the sound and complete index of all members |
| SquareSets.InsertShifted | src/set/square.rs:82-90 | the bucket gains each entry of the other set with its slot moved up by the old `len` |
| SquareSets.ShiftedSound | src/set/square.rs:82-90 | an entry shifted by the old `len` names the same rotated mosaic in the merged list |
| SquareSets.MergeStepSound | src/set/square.rs:82-90 | merging one bucket of the other set keeps the index sound |
| SquareSets.MergeStepCovers | src/set/square.rs:82-90 | merging one bucket of the other set lists every matching entry of the merged slots for that key |
| SquareSets.MergeComplete | src/set/square.rs:82-90 | once every key of the other set is merged, every member is listed under its rotated right edges |
| SquareSets.IndexAppend | src/set/square.rs:79-81 | an index of the old members stays sound when members are appended |
| SquareSets.EntryViewEdge | src/set/square.rs:109 | the view a query hands out, the entry's rotation plus `rotation_from_right(side)`, has on `side` the entry's right-edge key |
| SquareSets.SquareMosaicSet.QueryMatches | src/set/square.rs:114-124 | every view `query(side, e)` yields is a rotated member whose edge on `side` is `e`, and every rotated member with that edge is yielded; an unknown key yields nothing |
| SquareSets.SquareMosaicSet.IterByEdgeGroups | src/set/square.rs:93-112 | every group is non-empty and holds only rotated members whose edge on `side` is the group's key, and every rotated member appears under its own key |
| SquareSets.QueryExample | src/set/square.rs:137-220 | in the test set holding only `[[0, 1], [16, 17]]`, `query(Right, "aa")` yields exactly the half-turned and quarter-right-turned views |
| SquareSets.AllViewCellsDistinct | src/set/square.rs:51-64 | the 4·len rotated views have no duplicate exactly when the members are distinct up to rotation |
| SquareSets.SquareMosaicSet.AssertDistinct | src/set/square.rs:51-64 | passes exactly when no two rotated views of the members are equal |
| RectangleSets.RectangularMosaicSet.constructor | src/set/rectangle.rs:30-36 | a new set has no members and two empty indexes |
| RectangleSets.RectangularMosaicSet.Insert | src/set/rectangle.rs:68-90 | the mosaic becomes the last member; both indexes stay sound and complete, so each now files the new slot under its two rotated right (resp. top) edges |
| RectangleSets.InsertStep | src/set/rectangle.rs:68-90 | filing (slot, r) under the new member's rotated key keeps the index sound, lists the entry, and keeps every earlier entry |
| RectangleSets.IndexIsDetermined | src/set/rectangle.rs:68-112 | two sound and complete indexes of the same side (right or top) of the same members are equal |
| RectangleSets.RectangularMosaicSet.Extend | src/set/rectangle.rs:92-113 | the other set's members follow the existing ones, so `len` is the sum, and both merged indexes are sound and complete |
| RectangleSets.MergeIndex | src/set/rectangle.rs:98-112 | merging the other set's index with slots shifted by the old `len` gives the sound and complete index of all members |
| RectangleSets.InsertShifted | src/set/rectangle.rs:98-112 | the bucket gains each entry of the other set with its slot moved up by the old `len` |
| RectangleSets.ShiftedSound | src/set/rectangle.rs:98-112 | an entry shifted by the old `len` names the same rotated mosaic in the merged list |
| RectangleSets.MergeStepSound | src/set/rectangle.rs:98-112 | merging one bucket of the other set keeps the index sound |
| RectangleSets.MergeStepCovers | src/set/rectangle.rs:98-112 | merging one bucket lists every matching entry of the merged slots for that key |
| RectangleSets.MergeComplete | src/set/rectangle.rs:98-112 | once every key is merged, every member is listed under its rotated keys |
| RectangleSets.IndexAppend | src/set/rectangle.rs:92-97 | an index of the old members stays sound when members are appended |
| RectangleSets.EntryViewEdge | src/set/rectangle.rs:131 | the view handed out, the entry's rotation plus the side's turn, has on the turned side the entry's key |
| RectangleSets.QueryTurnsCarry | src/set/rectangle.rs:157-179 | `rotation_from_right` carries Right, and `rotation_from_top` carries Top, onto the queried side |
| RectangleSets.HalfTurnsCancel | src/set/rectangle.rs:131 | adding the same rectangular rotation twice is no change |
| RectangleSets.RectangularMosaicSet.QueryVerticalMatches | src/set/rectangle.rs:157-167 | every view `query_vertical(side, e)` yields is a rotated member whose vertical edge on `side` is `e`, and every such rotated member is yielded |
| RectangleSets.RectangularMosaicSet.QueryHorizontalMatches | src/set/rectangle.rs:169-179 | every view `query_horizontal(side, e)` yields is a rotated member whose horizontal edge on `side` is `e`, and every such rotated member is yielded |
| RectangleSets.RectangularMosaicSet.IterByVerticalEdgeGroups | src/set/rectangle.rs:115-134 | groups are non-empty, hold only rotated members with the key as their vertical edge on `side`, and every rotated member is under its key |
| RectangleSets.RectangularMosaicSet.IterByHorizontalEdgeGroups | src/set/rectangle.rs:136-155 | groups are non-empty, hold only rotated members with the key as their horizontal edge on `side`, and every rotated member is under its key |
| RectangleSets.QueryExampleEdges | src/set/rectangle.rs:192-196 | the test mosaic `[[0, 1, 2], [16, 17, 18]]` has right edge "bv" and left edge "aa" |
| RectangleSets.QueryExample | src/set/rectangle.rs:192-264 | in the set holding only that mosaic, `query_vertical(Right, "bv")` yields exactly the unturned view |
| RectangleSets.AllViewCellsDistinct | src/set/rectangle.rs:53-66 | the 2·len rotated views have no duplicate exactly when the members are distinct up to a half turn |
| RectangleSets.RectangularMosaicSet.AssertDistinct | src/set/rectangle.rs:53-66 | passes exactly when no two rotated views of the members are equal |
| Collections.NoDuplicatesBlocks | src/set/square.rs:51-64 | two equal-length blocks together have no duplicate exactly when each has none and they share nothing |
| Canonical.CanonicalExclusive | src/set/mod.rs:31-65 | no rotated tile is canonical in two classes, and the classification picks exactly the class whose predicate holds |
| Canonical.CanonicalRotationUnique | src/set/mod.rs:31-65 | a tile is canonical in a class under at most one rotation |
| Canonical.Single | src/set/mod.rs:77-89 | a 1x1 mosaic holds the rotated tile it was made from |
| Canonical.RotSelMembers | src/set/mod.rs:77-89 | the rotations of a tile selected for a class are exactly the ones that classify as that class |
| Canonical.RotSelAtMostOne | src/set/mod.rs:77-89 | a tile contributes at most one rotation to a class |
| Canonical.SelectedTilesMembers | src/set/mod.rs:77-89 | a class receives exactly the rotated tiles, not skipped, that classify as that class |
| Canonical.SelectedTilesDistinct | src/set/mod.rs:77-89 | no tile appears twice in a class |
| Canonical.ClassifyTiles | src/set/mod.rs:77-89 | after the 256×4 loop, each set holds as 1x1 mosaics exactly its class's rotated tiles, in tile order |
| Canonical.Build1x1Sets | src/set/mod.rs:67-91 | three distinct new sets, holding the canonical corners, edges and centres |
| Canonical.SingletonSet | src/set/mod.rs:103-112 | a new set whose one member is the clue's 1x1 mosaic |
| Canonical.Build1x1SetsWithClues | src/set/mod.rs:93-146 | the general sets skip tiles 76, 125, 135, 179 and 211, and each clue set holds its one tile in its fixed rotation |
| Canonical.CluesAreSetApart | src/set/mod.rs:119-123 | a class with the clue list skipped holds exactly the rotated tiles of that class whose tile is not a clue |
| Combine.CombineSquaresHorizontally | src/set/mod.rs:148-174 | the marking and copying loops give the same result as `CombineHorizontally` |
| Combine.CombineHorizontallyRefuses | src/set/mod.rs:148-174 | the result is None exactly when some tile occurs twice in `a`, twice in `b`, or in both |
| Combine.CombineHorizontallyCells | src/set/mod.rs:148-174 | on success the result is a dense `2s × s` mosaic with `a`'s cells on the left half and `b`'s cells shifted right by `s` |
| Combine.JoinedHorizontallyRepeats | src/set/mod.rs:148-174 | a tile repeated in the spliced grid is repeated in `a`, repeated in `b`, or shared by them |
| Combine.JoinedHorizontallyKeeps | src/set/mod.rs:148-174 | a repeat in `a`, a repeat in `b` or a shared tile makes the spliced grid not distinct |
| Combine.CombineRectanglesVertically | src/set/mod.rs:176-202 | the marking and copying loops give the same result as `CombineVertically` |
| Combine.CombineVerticallyRefuses | src/set/mod.rs:176-202 | the result is None exactly when some tile occurs twice in `a`, twice in `b`, or in both |
| Combine.CombineVerticallyCells | src/set/mod.rs:176-202 | on success the result is a dense `2s × 2s` mosaic with `a` on top and `b` shifted down by `s` |
| Combine.JoinedVerticallyRepeats | src/set/mod.rs:176-202 | a tile repeated in the stacked grid is repeated in `a`, repeated in `b`, or shared by them |
| Combine.JoinedVerticallyKeeps | src/set/mod.rs:176-202 | a repeat in `a`, a repeat in `b` or a shared tile makes the stacked grid not distinct |
| Combine.MinRotatedTileOf | src/set/mod.rs:204-214 | the accumulating loop, seeded with MAX, returns the least cell |
| Combine.MinCellIsLeast | src/set/mod.rs:204-214 | the least cell is below every cell of the mosaic and is one of its cells |
| Join.JoinRightsH | src/set/mod.rs:238-244 | for one left view, the pairs produced are exactly the candidate right views that pass the filter and combine |
| Join.JoinGroupH | src/set/mod.rs:234-247 | for one edge group, the pairs produced are exactly the (left, right) pairs whose left memo is Some, whose right passes the filter, and which combine |
| Join.GroupPairsH | src/set/mod.rs:234-247 | pairing a right-edge group with the query for the reversed edge on Left finds exactly the joinable pairs whose left view has that right edge |
| Join.JoinKeyH | src/set/mod.rs:234-247 | the pairs produced for one key are exactly the joinable pairs under that key, with no repeat |
| Join.BuildRectanglesMemo | src/set/mod.rs:216-250 | the join emits a combined rectangle for exactly the pairs where `a` is a rotated left member, `b` is a rotated right member, `b`'s left edge is the reversal of `a`'s right edge, `a`'s memo is Some, the filter holds and `combine` succeeds; each pair once |
| Join.JoinBelowV | src/set/mod.rs:299-307 | for one upper view, the pairs produced are exactly the candidate lower views that pass the filter and combine |
| Join.JoinGroupV | src/set/mod.rs:295-309 | for one edge group, the pairs produced are exactly the joinable (upper, lower) pairs |
| Join.GroupPairsV | src/set/mod.rs:295-309 | pairing a bottom-edge group with the query for the reversed edge on Top finds exactly the joinable pairs whose upper view has that bottom edge |
| Join.JoinKeyV | src/set/mod.rs:295-309 | the pairs produced for one key are exactly the joinable pairs under that key, with no repeat |
| Join.BuildSquaresMemo | src/set/mod.rs:274-312 | the join emits a combined square for exactly the pairs where `b`'s top edge is the reversal of `a`'s bottom edge, `a`'s memo is Some, the filter holds and `combine` succeeds; each pair once |
| Builds.BuildRectangles | src/set/mod.rs:252-272 | a pair is joined exactly when it matches, `a_filter(a)` and `b_filter(b)` hold |
| Builds.BuildSquares | src/set/mod.rs:314-334 | a pair is joined exactly when it matches, `a_filter(a)` and `b_filter(b)` hold |
| Builds.BuildRectangularCorners | src/set/mod.rs:352-370 | a corner is joined to an edge piece exactly when the corner is unturned and the edge is turned a quarter right |
| Builds.BuildRectangularEdges | src/set/mod.rs:386-404 | an edge piece is joined to a centre exactly when the edge is unturned |
| Builds.BuildRectangularCenters | src/set/mod.rs:421-441 | two centres are joined exactly when the least tile of both is unturned or turned a quarter left, and every rectangle produced has such a least tile |
| Builds.CombinedLeastH | src/set/mod.rs:433-439 | the least tile of a spliced rectangle is the least of the two halves' least tiles |
| Builds.BuildSquareCorners | src/set/mod.rs:462-480 | a corner rectangle is joined to an edge rectangle exactly when both are unturned |
| Builds.BuildSquareEdges | src/set/mod.rs:498-514 | two edge rectangles are joined exactly when both are unturned |
| Builds.BuildSquareCenters | src/set/mod.rs:534-553 | two centre rectangles are joined exactly when the least tile of both is unturned, and every square produced has an unturned least tile |
| Builds.CombinedLeastV | src/set/mod.rs:546-551 | the least tile of a stacked square is the least of the two halves' least tiles |
| Channels.Channel.Send | src/set/builder/counting.rs:73-77 | a sent message arrives after every earlier one |
| Channels.FlattenMembers | src/set/builder/counting.rs:36-43 | an item is in the whole stream exactly when it is in some chunk |
| Counting.CountingShard.constructor | src/set/builder/counting.rs:28-34 | a new shard holds the sender and a count of 0 |
| Counting.CountingShard.Insert | src/set/builder/counting.rs:55-57 | the count grows by exactly 1, whatever the item |
| Counting.CountingShard.Clone | src/set/builder/counting.rs:63-69 | the clone shares the sender and starts at 0, so no count is duplicated |
| Counting.CountingShard.Drop | src/set/builder/counting.rs:73-77 | the sender is taken and the count sent on it, so at most once |
| Counting.CountingSetBuilder.constructor | src/set/builder/counting.rs:13-20 | a new channel with nothing sent |
| Counting.CountingSetBuilder.NewShard | src/set/builder/counting.rs:28-34 | a new shard on the builder's channel, at count 0 |
| Counting.CountingSetBuilder.Finish | src/set/builder/counting.rs:36-43 | the sum of every count sent |
| Counting.SumConcat | src/set/builder/counting.rs:36-43 | the sum over two runs of messages is the sum of their sums |
| Counting.FeedChunk | src/set/builder/counting.rs:55-77 | a fresh shard fed a chunk and dropped sends the chunk's length |
| Counting.CountChunks | src/set/builder/counting.rs:13-77 | the builder, driven as the joins drive it, counts every item of the stream however it is chunked |
| CountingSampling.SamplingShard.constructor | src/set/builder/counting_sampling.rs:22-28 | a new shard holds the sender, a count of 0 and no sample, so its sample is kept only once something is counted |
| CountingSampling.SamplingShard.Insert | src/set/builder/counting_sampling.rs:53-58 | the count grows by 1, and the item becomes the sample only if there was none; afterwards a sample is there only with a count of at least 1 |
| CountingSampling.SamplingShard.Clone | src/set/builder/counting_sampling.rs:63-71 | the clone shares the sender and starts at (0, None), keeping the sample-only-if-counted invariant |
| CountingSampling.SamplingShard.Drop | src/set/builder/counting_sampling.rs:73-79 | the sender and sample are taken and (count, sample) sent, so at most once; the sample-only-if-counted invariant is kept |
| CountingSampling.SamplingSetBuilder.constructor | src/set/builder/counting_sampling.rs:11-14 | a new channel with nothing sent |
| CountingSampling.SamplingSetBuilder.NewShard | src/set/builder/counting_sampling.rs:22-28 | a new shard on the builder's channel, at (0, None) |
| CountingSampling.SamplingSetBuilder.Finish | src/set/builder/counting_sampling.rs:30-41 | the sum of the counts sent, and the sample of the earliest report that has one |
| CountingSampling.ReportStep | src/set/builder/counting_sampling.rs:30-41 | one more report adds its count, and its sample only if no sample came before |
| CountingSampling.FirstSampleIsSent | src/set/builder/counting_sampling.rs:30-41 | the kept sample is one that was sent, and it is None exactly when every report's sample is None |
| CountingSampling.FirstConcat | src/set/builder/counting_sampling.rs:53-58 | the first item of two runs is the first run's, unless it is empty |
| CountingSampling.FeedChunk | src/set/builder/counting_sampling.rs:53-79 | a fresh shard fed a chunk and dropped sends the chunk's length and first item |
| CountingSampling.SampleChunks | src/set/builder/counting_sampling.rs:11-79 | the builder counts every item of the stream and samples its first item, however the stream is chunked |
| InMemorySquare.SquareShard.constructor | src/set/builder/in_memory_square_mosaic.rs:26-31 | a new shard holds the sender and a new empty set |
| InMemorySquare.SquareShard.Insert | src/set/builder/in_memory_square_mosaic.rs:53-55 | the mosaic is inserted into the shard's set, which stays valid |
| InMemorySquare.SquareShard.Clone | src/set/builder/in_memory_square_mosaic.rs:60-67 | the clone shares the sender and holds a new empty set, not a copy |
| InMemorySquare.SquareShard.Drop | src/set/builder/in_memory_square_mosaic.rs:69-75 | the set is taken and sent, so at most once, leaving none |
| InMemorySquare.SquareSetBuilder.constructor | src/set/builder/in_memory_square_mosaic.rs:13-16 | a new channel with nothing sent |
| InMemorySquare.SquareSetBuilder.NewShard | src/set/builder/in_memory_square_mosaic.rs:26-31 | a new shard on the builder's channel, with a new empty set |
| InMemorySquare.SquareSetBuilder.Finish | src/set/builder/in_memory_square_mosaic.rs:33-40 | a new valid set extended with every set sent, in arrival order, so its members are theirs set after set |
| InMemorySquare.MembersStep | src/set/builder/in_memory_square_mosaic.rs:33-40 | one more set puts its members after the earlier ones |
| InMemorySquare.FeedChunk | src/set/builder/in_memory_square_mosaic.rs:53-75 | a fresh shard fed a chunk and dropped sends a valid set holding exactly the chunk |
| InMemorySquare.DropSeed | src/set/builder/in_memory_square_mosaic.rs:69-75 | dropping the unused seed shard sends an empty set, which adds no member |
| InMemorySquare.RunWorker | src/set/builder/in_memory_square_mosaic.rs:60-75 | a clone fed one chunk sends a valid set holding exactly the chunk |
| InMemorySquare.RunWorkers | src/set/builder/in_memory_square_mosaic.rs:53-75 | after one worker per chunk, the sets sent hold the stream, chunk after chunk |
| InMemorySquare.CollectSquares | src/set/builder/in_memory_square_mosaic.rs:13-75 | the builder's result is a valid set holding every mosaic of the stream, in stream order, however it is chunked |
| InMemoryRectangular.RectangleShard.constructor | src/set/builder/in_memory_rectangular_mosaic.rs:32-37 | a new shard holds the sender and a new empty set |
| InMemoryRectangular.RectangleShard.Insert | src/set/builder/in_memory_rectangular_mosaic.rs:63-65 | the mosaic is inserted into the shard's set, which stays valid |
| InMemoryRectangular.RectangleShard.Clone | src/set/builder/in_memory_rectangular_mosaic.rs:70-79 | the clone shares the sender and holds a new empty set |
| InMemoryRectangular.RectangleShard.Drop | src/set/builder/in_memory_rectangular_mosaic.rs:81-89 | the set is taken and sent, so at most once, leaving none |
| InMemoryRectangular.RectangleSetBuilder.constructor | src/set/builder/in_memory_rectangular_mosaic.rs:19-22 | a new channel with nothing sent |
| InMemoryRectangular.RectangleSetBuilder.NewShard | src/set/builder/in_memory_rectangular_mosaic.rs:32-37 | a new shard on the builder's channel, with a new empty set |
| InMemoryRectangular.RectangleSetBuilder.Finish | src/set/builder/in_memory_rectangular_mosaic.rs:39-46 | a new valid set extended with every set sent, in arrival order |
| InMemoryRectangular.MembersStep | src/set/builder/in_memory_rectangular_mosaic.rs:39-46 | one more set puts its members after the earlier ones |
| InMemoryRectangular.FeedChunk | src/set/builder/in_memory_rectangular_mosaic.rs:63-89 | a fresh shard fed a chunk and dropped sends a valid set holding exactly the chunk |
| InMemoryRectangular.DropSeed | src/set/builder/in_memory_rectangular_mosaic.rs:81-89 | dropping the unused seed shard sends an empty set, which adds no member |
| InMemoryRectangular.RunWorker | src/set/builder/in_memory_rectangular_mosaic.rs:70-89 | a clone fed one chunk sends a valid set holding exactly the chunk |
| InMemoryRectangular.RunWorkers | src/set/builder/in_memory_rectangular_mosaic.rs:63-89 | after one worker per chunk, the sets sent hold the stream, chunk after chunk |
| InMemoryRectangular.CollectRectangles | src/set/builder/in_memory_rectangular_mosaic.rs:19-89 | the builder's result is a valid set holding every mosaic of the stream, in stream order, however it is chunked |
| Sat.LiteralMeaning | src/sat.rs:10-22 | `positive(v)` is +v and holds when v is true; `negative(v)` is −v and holds when v is false |
| Sat.Clauses.constructor | src/sat.rs:60-63 | a new store has no clauses |
| Sat.Clauses.PushBinary | src/sat.rs:66-68 | one binary clause is appended and `len` grows by 1 |
| Sat.Clauses.PushLong | src/sat.rs:70-72 | one long clause is appended and `len` grows by 1 |
| Sat.Clauses.PushUnit | src/sat.rs:74-76 | a one-literal long clause is appended and `len` grows by 1 |
| Sat.Clauses.EmitAtMostOneOfAsWritten | src/sat.rs:92-101 | the nested loop appends, for each `k`, the clauses ¬vs[k] ∨ ¬vs[j] for `j < k − 1` only |
| Sat.AsWrittenIsImplied | src/sat.rs:92-101 | whenever at most one variable is true, every clause emitted as written holds |
| Sat.AsWrittenAllowsTwo | src/sat.rs:92-101 | for variables [1, 2] nothing is emitted, so both may be true |
| Sat.PairsAsWrittenCount | src/sat.rs:92-101 | as written, `n` variables give (n−1)(n−2)/2 clauses |
| Sat.Clauses.EmitAtMostOneOf | src/sat.rs:92-101 | the corrected loop appends ¬vs[k] ∨ ¬vs[j] for every `j < k` |
| Sat.AllPairsMeaning | src/sat.rs:92-101 | the corrected clauses all hold exactly when at most one of the variables is true |
| Sat.AllPairsCount | src/sat.rs:92-101 | the corrected loop emits n(n−1)/2 clauses |
| Sat.Clauses.EmitAtLeastOneOf | src/sat.rs:103-114 | one long clause of the positive literals, in input order, is appended |
| Sat.AtLeastOneMeaning | src/sat.rs:103-114 | that clause holds exactly when some variable is true |
| Sat.ForTilePlacement | src/sat.rs:139-147 | a tile placement lands in [1, 262144], the tile-placement range |
| Sat.ForRightEdgeColor | src/sat.rs:149-158 | a right-edge colour, for x < 15 and a colour from 1 to 22, lands in the right-edge range |
| Sat.ForBottomEdgeColor | src/sat.rs:160-169 | a bottom-edge colour, for y < 15 and a colour from 1 to 22, lands in the bottom-edge range, which ends at COUNT |
| Sat.DecodeTilePlacement | src/sat.rs:171-181 | `kind` of a tile-placement variable gives back its (x, y, rotated tile) |
| Sat.DecodeRightEdgeColor | src/sat.rs:182-188 | `kind` of a right-edge variable gives back its (x, y, colour) |
| Sat.DecodeBottomEdgeColor | src/sat.rs:189-196 | `kind` of a bottom-edge variable gives back its (x, y, colour) |
| Sat.DecodeEncode | src/sat.rs:243-278 | every encoding is in [1, COUNT] and decodes to what was encoded |
| Sat.EncodeDecode | src/sat.rs:171-197 | every index in [1, COUNT] decodes to a valid kind whose encoding is that index |
| Sat.CountIsNumberOfVariables | src/sat.rs:126-137 | COUNT is 272704, distinct kinds get distinct indexes, and the indexes used are exactly 1 to COUNT |

## Left out

- Parallelism. The rayon `par_bridge` / `for_each_with` loops of the joins are a sequential
  pass over the edge keys. The mpsc channels are a `Channel` object whose `sent` sequence
  is what the receiver sees. How the item stream is split among worker shards is a
  parameter (`chunks`), so thread scheduling is not modelled.
- The point at which Rust runs `Drop` is not modelled. Each shard is dropped explicitly,
  once its chunk is done, and the seed shard last.
- The joins return the stream of combined mosaics they would insert into a shard, with
  the matched pairs as a ghost witness. The builders are proved over an arbitrary
  chunking of such a stream, and the two are not wired together in one method.
- The order of iteration of `BTreeMap` / `BTreeSet` is not modelled. Indexes are Dafny
  maps of sets, a query returns a set of views, and `iter_by_*_edge` returns a map from
  key to group, so "each key once" holds, but "ascending" is not stated.
- The order of the join's output follows the order in which the loops pick keys and
  members, and that order is left open.
- Text rendering is left out: `Display` and `MosaicDisplay` of mosaics, and
  `print_dimacs_fragment` of literals and clauses. Only the edge `Display` is modelled,
  as `Edges.Render`.
- `src/report.rs` is not part of this model, nor are the binaries under `src/bin/` and
  `src/macros.rs`. They hold wall-clock timing, locale formatting, f64 ratios, stdout
  writers and test sugar.
- `hints()` (src/lib.rs:253-298) is not a separate member. The five clue placements
  appear as the `Canonical.CLUE_*` constants used by `build_1x1_sets_with_clues`; their
  board coordinates are not used.
- `Hash` / `Debug` derives and the `bitvec` internals of `Color` and `RotatedTile` are
  left out. `Color` is an integer newtype below 32, and the masks of `kind` are written
  out as `% 256` then `% 16`, `% 32` or `% 4`.
- Edges.FromByteString: the source panics on a byte outside 'a'..='w'. The model
  returns `None` instead.
- SquareSets.SquareMosaicSet.Extend: the source moves `other` into the set. The model
  reads `other` and leaves it in place, and requires that it is a different object.
- RectangleSets.RectangularMosaicSet.Extend: same as the square version.
- Filters and memos in the joins and builds are Rust closures, modelled as Dafny partial
  functions that are defined on every mosaic of the right shape.
- Sat.Kind requires an index of at least 1. For index 0 the unsigned subtraction in
  `kind` underflows, which panics in debug builds.
- Sat.ForRightEdgeColor: the source's `assert!`s on `x < 15` and on the colour range are
  preconditions here.
- Sat.ForBottomEdgeColor: the same, for `y < 15` and the colour range.
- Sat.Clauses.EmitAtMostOneOfAsWritten: the source indexes `variables[1..]` and panics on
  an empty slice. The model requires at least one variable instead.
- Sat.Positive: `Literal` holds an `isize`, and the conversion from a variable index can
  wrap. That is not modelled, because every index the encoder produces is at most 272704.
- Sat.Negative: the same as Sat.Positive.
- `SquareMosaicSet::iter_mosaics` and `RectangularMosaicSet::iter_mosaics` have no member
  of their own. They are the `mosaics` field.
- `len` of the two set classes and of `Clauses` is a function with no contract of its
  own. Its growth is stated by the `Insert`, `Extend` and `Push*` members.

## Findings

| source | as written | input that shows it | evidently intended | confidence | as-written member | corrected member |
|---|---|---|---|---|---|---|
| src/sat.rs:92-101 | `emit_at_most_one_of` pairs `variables[k]` only with `variables[j]` for `j < k − 1`. `variables[1..].enumerate()` gives `a = variables[i + 1]` but `variables[..i]` stops before `variables[i]`, so adjacent pairs are never emitted (n variables give (n−1)(n−2)/2 clauses) | variables [1, 2], both true: no clause is emitted, so the "at most one" constraint is satisfied by two true variables | a clause ¬vs[j] ∨ ¬vs[k] for every `j < k`, which holds exactly when at most one is true | not executed | Sat.AsWrittenAllowsTwo (with Sat.Clauses.EmitAtMostOneOfAsWritten, Sat.PairsAsWrittenCount) | Sat.Clauses.EmitAtMostOneOf (with Sat.AllPairsMeaning, Sat.AllPairsCount) |
