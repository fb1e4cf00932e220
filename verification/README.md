# Fire piece-square table, modelled in Dafny

The Fire chess engine scores "piece P standing on square S" from a static
table, `pst::psq[16][64]` (pst.cpp:23-197). Each entry is one integer that
packs a middlegame and an endgame positional score. The slots are laid out
as follows:

- slot 0 is the null piece;
- slots 1-6 hold the white king, pawn, knight, bishop, rook and queen;
- slots 7 and 8 are separators;
- slots 9-14 hold the black pieces in the same order;
- slot 15 closes the table.

The filler slots are all zero. Squares are numbered rank-major: square
`8 * rank + file`, with rank 0 being white's back rank.

`pst.dfy` (module `PieceSquare`) holds the model.

- **The data.** All sixteen slots are transcribed as constants.
  - Each slot is written the way pst.cpp writes it: eight ranks of eight
    files.
  - Square `sq` is file `sq % 8` of rank `sq / 8`. This is the row-major
    order of the flat C array, so `Lookup(piece, sq)` is `psq[piece][sq]`.
- **The lookup.** `Lookup` is total on `piece < 16 && sq < 64`.
- **The structure the data carries.** Lemmas prove:
  - every black table is the rank-mirrored negation of the white table of
    the same kind, on every square;
  - the filler slots and the pawns' edge ranks are zero;
  - the table is left-right symmetric except on exactly two squares of the
    knight and rook tables of each colour;
  - the scenarios below hold.

`DeriveBlack` computes a black table from a white one. Each authored black
table is proved equal to the table derived from its white counterpart.

pst.cpp computes nothing: every slot, black ones included, is literal data
there. The model therefore keeps the authored black literals and proves them
equal to the derived tables, rather than computing them.

The mirror law is stated on the stored integers: `psq[k + 8][s] == -psq[k][Mirror(s)]`.
For any packing that is linear in its two components, negating the packed
integer is the same as packing both components negated.

## Model

| member | source | states |
|---|---|---|
| PieceSquare.Mirror | pst.cpp:23-197 | the mirrored square is on the board, on rank 7 - r and the same file |
| PieceSquare.FlipFile | pst.cpp:23-197 | the file-flipped square is on the board, on the same rank and file 7 - f |
| PieceSquare.MirrorInvolutive | pst.cpp:23-197 | mirroring twice is the identity; mirroring commutes with flipping the file |
| PieceSquare.MirrorIsXor56 | pst.cpp:23-197 | on a 6-bit square index, the rank mirror is `sq ^ 56` |
| PieceSquare.FlipFileIsXor7 | pst.cpp:23-197 | on a 6-bit square index, the file flip is `sq ^ 7` |
| PieceSquare.Lookup | pst.cpp:23-197 | total on piece < 16 && sq < 64; returns entry `sq` of slot `piece`, that is rank `sq / 8`, file `sq % 8`, with `sq == 8 * rank + file`: the row-major element `psq[piece][sq]` |
| PieceSquare.Psq | pst.cpp:23-197 | the 16 slots in the source's order: null, white king to queen, two separators, black king to queen, last slot |
| PieceSquare.TableShape | pst.cpp:23 | the table has 16 slots of 8 ranks of 8 files, so every `psq[piece][sq]` with piece < 16 and sq < 64 is an entry |
| PieceSquare.Slot | pst.cpp:35-186 | a coloured piece's slot is below 16 and not a filler; it is above 8 exactly when the piece is black |
| PieceSquare.PieceAt | pst.cpp:35-186 | every non-filler slot holds a coloured piece whose Slot is that slot (inverse of Slot) |
| PieceSquare.SlotInjective | pst.cpp:35-186 | distinct coloured pieces have distinct slots |
| PieceSquare.SlotHolds | pst.cpp:23-197 | slot `Slot(c, k)` holds the authored table of colour c and kind k |
| PieceSquare.FillerSlotsZero | pst.cpp:23-197 | slots 0, 7, 8 and 15 (lines 25-34, 101-120, 187-196) score zero on every square |
| PieceSquare.DeriveBlack | pst.cpp:122-186 | the derived table holds, on the mirror of every square, the negated white entry of that square |
| PieceSquare.DeriveBlackEntry | pst.cpp:122-186 | each derived entry is the negated white entry of the mirrored square |
| PieceSquare.DeriveBlackUnique | pst.cpp:122-186 | a table with that property on every square is the derived table |
| PieceSquare.DeriveBlackCharacterized | pst.cpp:122-186 | both directions: a table equals DeriveBlack(white) if and only if each entry is the negated white entry of the mirrored square |
| PieceSquare.DeriveBlackInvolutive | pst.cpp:35-186 | deriving twice gives back the original table |
| PieceSquare.NegMirroredDerived | pst.cpp:35-186 | a pair of tables whose every rank is the negated mirrored rank of the other is a derived pair |
| PieceSquare.KingDerived | pst.cpp:123-130 | the authored black king equals DeriveBlack of the white king (lines 37-44) |
| PieceSquare.PawnDerived | pst.cpp:134-141 | the authored black pawn equals DeriveBlack of the white pawn (lines 48-55) |
| PieceSquare.KnightDerived | pst.cpp:145-152 | the authored black knight equals DeriveBlack of the white knight (lines 59-66) |
| PieceSquare.BishopDerived | pst.cpp:156-163 | the authored black bishop equals DeriveBlack of the white bishop (lines 70-77) |
| PieceSquare.RookDerived | pst.cpp:167-174 | the authored black rook equals DeriveBlack of the white rook (lines 81-88) |
| PieceSquare.QueenDerived | pst.cpp:178-185 | the authored black queen equals DeriveBlack of the white queen (lines 92-99) |
| PieceSquare.BlackIsDerived | pst.cpp:35-186 | for every kind, the black table is the one derived from the white table |
| PieceSquare.WhiteIsRecoverable | pst.cpp:35-186 | for every kind, the white table is the one derived from the black table |
| PieceSquare.MirrorNegation | pst.cpp:35-186 | for white slots 1-6 and every square s: `psq[k + 8][s] == -psq[k][Mirror(s)]` and `psq[k][s] == -psq[k + 8][Mirror(s)]` |
| PieceSquare.PawnEdgeRanksZero | pst.cpp:47-142 | both pawn slots score zero on every file of ranks 0 and 7 |
| PieceSquare.FileAsymmetricSquares | pst.cpp:59-168 | the listed asymmetric squares are on the board, and the set is closed under flipping the file |
| PieceSquare.KnightRankSix | pst.cpp:65 | on rank 6 of the white knight, exactly files 2 and 5 differ from their file flips |
| PieceSquare.RookRankSix | pst.cpp:87 | on rank 6 of the white rook, exactly files 3 and 4 differ from their file flips |
| PieceSquare.WhiteFileAsymmetry | pst.cpp:36-99 | a white entry differs from its file flip exactly on the knight's squares 50 and 53 and the rook's squares 51 and 52 |
| PieceSquare.AsymmetricSquaresMirrored | pst.cpp:59-168 | a black slot's asymmetric squares are the rank mirrors of its white slot's |
| PieceSquare.DeriveBlackFlip | pst.cpp:122-186 | a derived table breaks left-right symmetry exactly on the mirrors of the squares where its white table does |
| PieceSquare.BlackFileAsymmetry | pst.cpp:122-186 | a black entry differs from its file flip exactly on the knight's squares 10 and 13 and the rook's squares 11 and 12 |
| PieceSquare.FileAsymmetry | pst.cpp:23-197 | in every slot, an entry differs from its file flip if and only if the square is in FileAsymmetricSquares (both directions) |
| PieceSquare.KingsOnHomeSquares | pst.cpp:37 | white king on square 4 scores -53216318; black king on its mirror square 60 scores +53216318 (line 130) |
| PieceSquare.KnightsInCorners | pst.cpp:66 | white knight on square 56 scores -135660149; black knight on its mirror square 0 scores +135660149 (line 145) |
| PieceSquare.OffCentreEntries | pst.cpp:65 | knight 50/53 are -2097176/131064 and rook 51/52 are 9240597/7929877 (line 87); the black squares 10/13 and 11/12 hold the negations (lines 146, 168) |

## Left out

- Packing and unpacking of the middlegame/endgame pair: the codec lives in fire.h, and fire.h is not part of this model. The model uses no bit layout and no rounding rule, and every law is stated on the stored integers.
- The piece and square enumerations of position.h: position.h is not part of this model. The slot numbering (null, six white kinds, two separators, six black kinds, last slot) follows the comments in pst.cpp.
- Evaluation: summing table entries over a position, incremental updates during move making, and search are the table's consumers, not part of it.
- Overflow of sums of packed scores: it happens outside this file. Each single entry is a literal that fits in 32 bits.
- Mutability: the C array is declared without `const`, but nothing in pst.cpp writes to it. It is modelled as immutable constants, and initialisation order and concurrent access are not modelled.
- Generating the black tables at start-up: the source does not do this. `DeriveBlack` exists as the reference that the authored black literals are proved against.
