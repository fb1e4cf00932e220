/**
 * The piece-square table of the Fire chess engine (pst.cpp): for each of 16
 * piece slots and each of the 64 squares, one integer that packs a middlegame
 * and an endgame positional score.  The array is static data, so it is
 * modelled as constant sequences, a pure lookup, and lemmas about the
 * structure the data carries: four all-zero filler slots, black slots that
 * are the rank-mirrored negation of the white slots, and a left-right
 * symmetry that holds everywhere except on four squares per colour.
 */
module PieceSquare {

  // ----------------------------------------------------------------------
  // Squares
  // ----------------------------------------------------------------------

  /** Squares are rank-major: square 8 * rank + file, rank 0 being white's back rank. */
  function Rank(sq: nat): nat { sq / 8 }

  function File(sq: nat): nat { sq % 8 }

  /** The square on the same file, on the rank seen from the other side (rank r <-> 7 - r). */
  function Mirror(sq: nat): (m: nat)
    requires sq < 64
    ensures m < 64
    ensures Rank(m) == 7 - Rank(sq) && File(m) == File(sq)
  {
    (7 - sq / 8) * 8 + sq % 8
  }

  /** The square on the same rank, on the file seen from the other wing (file f <-> 7 - f). */
  function FlipFile(sq: nat): (m: nat)
    requires sq < 64
    ensures m < 64
    ensures Rank(m) == Rank(sq) && File(m) == 7 - File(sq)
  {
    (sq / 8) * 8 + (7 - sq % 8)
  }

  /** Mirroring is its own inverse and commutes with flipping the file. */
  lemma MirrorInvolutive(sq: nat)
    requires sq < 64
    ensures Mirror(Mirror(sq)) == sq
    ensures Mirror(FlipFile(sq)) == FlipFile(Mirror(sq))
  {
  }

  /** On a 6-bit square index, mirroring the rank flips the three rank bits: `sq ^ 56`. */
  lemma MirrorIsXor56(sq: bv6)
    ensures Mirror(sq as nat) == (sq ^ 56) as nat
  {
  }

  /** On a 6-bit square index, flipping the file flips the three file bits: `sq ^ 7`. */
  lemma FlipFileIsXor7(sq: bv6)
    ensures FlipFile(sq as nat) == (sq ^ 7) as nat
  {
  }

  // ----------------------------------------------------------------------
  // The table data (pst.cpp:23-197)
  // ----------------------------------------------------------------------

  /**
   * The 64 entries of one piece slot, written as pst.cpp writes them: eight
   * ranks of eight files.  Square sq is file sq % 8 of rank sq / 8, which is
   * the row-major order of the flat C array.
   */
  type Table = t: seq<seq<int>> | |t| == 8 && forall r | 0 <= r < 8 :: |t[r]| == 8
    witness seq(8, r => seq(8, f => 0))

  /** The entry of a table for square `sq`: `psq[piece][sq]` once the slot is chosen. */
  function At(t: Table, sq: nat): int
    requires sq < 64
  {
    t[sq / 8][sq % 8]
  }

  /** Slot 1, the white king (pst.cpp:37-44). */
  const WhiteKing: Table := [
    [-19400434, -12846450, -36963467, -53216318, -53216318, -36963467, -12846450, -19400434],
    [-18416946, -11862962, -35193548, -50528895, -50528895, -35193548, -11862962, -18416946],
    [-29230062, -22545006, -44171656, -57934139, -57934139, -44171656, -22545006, -29230062],
    [-33882920, -27394472, -48103617, -61079668, -61079668, -48103617, -27394472, -33882920],
    [-40239838, -33554782, -53477495, -65536043, -65536043, -53477495, -33554782, -40239838],
    [-47186705, -40698257, -59703466, -70975581, -70975581, -59703466, -40698257, -47186705],
    [-54985666, -48300610, -66715996, -77070607, -77070607, -66715996, -48300610, -54985666],
    [-65144046, -58590062, -75891336, -85459515, -85459515, -75891336, -58590062, -65144046]
  ]

  /** Slot 2, the white pawn (pst.cpp:48-55). */
  const WhitePawn: Table := [
    [0, 0, 0, 0, 0, 0, 0, 0],
    [-5636096, -1638404, 196597, 2097136, 2097136, 196597, -1638404, -5636096],
    [-5439487, -1245185, 786424, 2883572, 2883572, 786424, -1245185, -5439487],
    [-4980728, -393215, 2097151, 4587512, 4587512, 2097151, -393215, -4980728],
    [-4587508, 393224, 3342337, 6291455, 6291455, 3342337, 393224, -4587508],
    [-4194285, 1245196, 4587528, 7929857, 7929857, 4587528, 1245196, -4194285],
    [-4194285, 1245196, 4587528, 7929857, 7929857, 4587528, 1245196, -4194285],
    [0, 0, 0, 0, 0, 0, 0, 0]
  ]

  /** Slot 3, the white knight (pst.cpp:59-66). */
  const WhiteKnight: Table := [
    [-40435818, -31588424, -25755698, -22806567, -22806567, -25755698, -31588424, -40435818],
    [-26214472, -17367079, -11534352, -8585221, -8585221, -11534352, -17367079, -26214472],
    [-17563709, -6422540, -589813, 2293782, 2293782, -589813, -6422540, -17563709],
    [-12320824, -1179655, 6881312, 9699372, 9699372, 6881312, -1179655, -12320824],
    [-10420282, 589816, 8650783, 14024762, 14024762, 8650783, 589816, -10420282],
    [-11862081, -786448, 7208983, 12582962, 12582962, 7208983, -786448, -11862081],
    [-21364848, -10158142, -2097176, 786420, 786420, 131064, -10158142, -21364848],
    [-135660149, -18415699, -12451900, -9568305, -9568305, -12451900, -18415699, -135660149]
  ]

  /** Slot 4, the white bishop (pst.cpp:70-77). */
  const WhiteBishop: Table := [
    [-2097168, -4325408, -5767216, -6422576, -6422576, -5767216, -4325408, -2097168],
    [-3538976, 1441808, 1441808, -524288, -524288, 1441808, 1441808, -3538976],
    [-4325408, 2097168, 3538976, 2883600, 2883600, 3538976, 2097168, -4325408],
    [-4325408, 524288, 3538976, 7340080, 7340080, 3538976, 524288, -4325408],
    [-4980768, 0, 2883600, 6422576, 6422576, 2883600, 0, -4980768],
    [-4980768, 2883600, 4325408, 3538976, 3538976, 4325408, 2883600, -4980768],
    [-4325408, 2097168, 3538976, 1441808, 1441808, 3538976, 2097168, -4325408],
    [-2883600, -3538976, -3538976, -2883600, -2883600, -3538976, -3538976, -2883600]
  ]

  /** Slot 5, the white rook (pst.cpp:81-88). */
  const WhiteRook: Table := [
    [-3735563, 1114101, 5308405, 9568245, 9568245, 5308405, 1114101, -3735563],
    [-4784119, 65545, 4259849, 8519689, 8519689, 4259849, 65545, -4784119],
    [-5570540, -786412, 3407892, 7733268, 7733268, 3407892, -786412, -5570540],
    [-6160362, -1376234, 2818070, 7077910, 7077910, 2818070, -1376234, -6160362],
    [-6619097, -1769433, 2424871, 6684711, 6684711, 2424871, -1769433, -6619097],
    [-5373904, -786384, 3538992, 7929904, 7929904, 3538992, -786384, -5373904],
    [-4063211, 393237, 4980757, 9240597, 7929877, 4980757, 393237, -4063211],
    [-3866691, 589757, 5177277, 9437117, 9437117, 5177277, 589757, -3866691]
  ]

  /** Slot 6, the white queen (pst.cpp:92-99). */
  const WhiteQueen: Table := [
    [-4325461, -4325500, -4325525, -4325538, -4325538, -4325525, -4325500, -4325461],
    [-3932205, -1245193, -1245219, -1245232, -1245232, -1245219, -1245193, -3932205],
    [-3473424, -786413, 1310774, 1310761, 1310761, 1310774, -786413, -3473424],
    [-3080192, -393181, 1704005, 3539051, 3539051, 1704005, -393181, -3080192],
    [-2686973, 38, 2097224, 3932270, 3932270, 2097224, 38, -2686973],
    [-2293766, 393244, 2490431, 2490419, 2490419, 2490431, 393244, -2293766],
    [-1900573, 786438, 786413, 786400, 786400, 786413, 786438, -1900573],
    [-1441856, -1441893, -1441919, -1441932, -1441932, -1441919, -1441893, -1441856]
  ]

  /** Slot 9, the black king (pst.cpp:123-130). */
  const BlackKing: Table := [
    [65144046, 58590062, 75891336, 85459515, 85459515, 75891336, 58590062, 65144046],
    [54985666, 48300610, 66715996, 77070607, 77070607, 66715996, 48300610, 54985666],
    [47186705, 40698257, 59703466, 70975581, 70975581, 59703466, 40698257, 47186705],
    [40239838, 33554782, 53477495, 65536043, 65536043, 53477495, 33554782, 40239838],
    [33882920, 27394472, 48103617, 61079668, 61079668, 48103617, 27394472, 33882920],
    [29230062, 22545006, 44171656, 57934139, 57934139, 44171656, 22545006, 29230062],
    [18416946, 11862962, 35193548, 50528895, 50528895, 35193548, 11862962, 18416946],
    [19400434, 12846450, 36963467, 53216318, 53216318, 36963467, 12846450, 19400434]
  ]

  /** Slot 10, the black pawn (pst.cpp:134-141). */
  const BlackPawn: Table := [
    [0, 0, 0, 0, 0, 0, 0, 0],
    [4194285, -1245196, -4587528, -7929857, -7929857, -4587528, -1245196, 4194285],
    [4194285, -1245196, -4587528, -7929857, -7929857, -4587528, -1245196, 4194285],
    [4587508, -393224, -3342337, -6291455, -6291455, -3342337, -393224, 4587508],
    [4980728, 393215, -2097151, -4587512, -4587512, -2097151, 393215, 4980728],
    [5439487, 1245185, -786424, -2883572, -2883572, -786424, 1245185, 5439487],
    [5636096, 1638404, -196597, -2097136, -2097136, -196597, 1638404, 5636096],
    [0, 0, 0, 0, 0, 0, 0, 0]
  ]

  /** Slot 11, the black knight (pst.cpp:145-152). */
  const BlackKnight: Table := [
    [135660149, 18415699, 12451900, 9568305, 9568305, 12451900, 18415699, 135660149],
    [21364848, 10158142, 2097176, -786420, -786420, -131064, 10158142, 21364848],
    [11862081, 786448, -7208983, -12582962, -12582962, -7208983, 786448, 11862081],
    [10420282, -589816, -8650783, -14024762, -14024762, -8650783, -589816, 10420282],
    [12320824, 1179655, -6881312, -9699372, -9699372, -6881312, 1179655, 12320824],
    [17563709, 6422540, 589813, -2293782, -2293782, 589813, 6422540, 17563709],
    [26214472, 17367079, 11534352, 8585221, 8585221, 11534352, 17367079, 26214472],
    [40435818, 31588424, 25755698, 22806567, 22806567, 25755698, 31588424, 40435818]
  ]

  /** Slot 12, the black bishop (pst.cpp:156-163). */
  const BlackBishop: Table := [
    [2883600, 3538976, 3538976, 2883600, 2883600, 3538976, 3538976, 2883600],
    [4325408, -2097168, -3538976, -1441808, -1441808, -3538976, -2097168, 4325408],
    [4980768, -2883600, -4325408, -3538976, -3538976, -4325408, -2883600, 4980768],
    [4980768, 0, -2883600, -6422576, -6422576, -2883600, 0, 4980768],
    [4325408, -524288, -3538976, -7340080, -7340080, -3538976, -524288, 4325408],
    [4325408, -2097168, -3538976, -2883600, -2883600, -3538976, -2097168, 4325408],
    [3538976, -1441808, -1441808, 524288, 524288, -1441808, -1441808, 3538976],
    [2097168, 4325408, 5767216, 6422576, 6422576, 5767216, 4325408, 2097168]
  ]

  /** Slot 13, the black rook (pst.cpp:167-174). */
  const BlackRook: Table := [
    [3866691, -589757, -5177277, -9437117, -9437117, -5177277, -589757, 3866691],
    [4063211, -393237, -4980757, -9240597, -7929877, -4980757, -393237, 4063211],
    [5373904, 786384, -3538992, -7929904, -7929904, -3538992, 786384, 5373904],
    [6619097, 1769433, -2424871, -6684711, -6684711, -2424871, 1769433, 6619097],
    [6160362, 1376234, -2818070, -7077910, -7077910, -2818070, 1376234, 6160362],
    [5570540, 786412, -3407892, -7733268, -7733268, -3407892, 786412, 5570540],
    [4784119, -65545, -4259849, -8519689, -8519689, -4259849, -65545, 4784119],
    [3735563, -1114101, -5308405, -9568245, -9568245, -5308405, -1114101, 3735563]
  ]

  /** Slot 14, the black queen (pst.cpp:178-185). */
  const BlackQueen: Table := [
    [1441856, 1441893, 1441919, 1441932, 1441932, 1441919, 1441893, 1441856],
    [1900573, -786438, -786413, -786400, -786400, -786413, -786438, 1900573],
    [2293766, -393244, -2490431, -2490419, -2490419, -2490431, -393244, 2293766],
    [2686973, -38, -2097224, -3932270, -3932270, -2097224, -38, 2686973],
    [3080192, 393181, -1704005, -3539051, -3539051, -1704005, 393181, 3080192],
    [3473424, 786413, -1310774, -1310761, -1310761, -1310774, 786413, 3473424],
    [3932205, 1245193, 1245219, 1245232, 1245232, 1245219, 1245193, 3932205],
    [4325461, 4325500, 4325525, 4325538, 4325538, 4325525, 4325500, 4325461]
  ]

  /** The all-zero slot: slots 0, 7, 8 and 15 (pst.cpp:25-34, 101-110, 111-120, 187-196). */
  const Empty: Table := [
    [0, 0, 0, 0, 0, 0, 0, 0],
    [0, 0, 0, 0, 0, 0, 0, 0],
    [0, 0, 0, 0, 0, 0, 0, 0],
    [0, 0, 0, 0, 0, 0, 0, 0],
    [0, 0, 0, 0, 0, 0, 0, 0],
    [0, 0, 0, 0, 0, 0, 0, 0],
    [0, 0, 0, 0, 0, 0, 0, 0],
    [0, 0, 0, 0, 0, 0, 0, 0]
  ]

  /** The table `psq[num_pieces][num_squares]` of pst.cpp:23-197, slot by slot. */
  const Psq: seq<Table> := [
    Empty,
    WhiteKing, WhitePawn, WhiteKnight, WhiteBishop, WhiteRook, WhiteQueen,
    Empty, Empty,
    BlackKing, BlackPawn, BlackKnight, BlackBishop, BlackRook, BlackQueen,
    Empty
  ]

  /** The table has 16 slots of 8 ranks of 8 files: every `psq[piece][sq]` with piece < 16 and sq < 64 is an entry. */
  lemma TableShape()
    ensures |Psq| == 16
    ensures forall piece | 0 <= piece < 16 :: |Psq[piece]| == 8 && forall r | 0 <= r < 8 :: |Psq[piece][r]| == 8
  {
  }

  // ----------------------------------------------------------------------
  // Piece slots
  // ----------------------------------------------------------------------

  datatype Color = White | Black

  datatype Kind = King | Pawn | Knight | Bishop | Rook | Queen

  /** The slots that hold no piece: the null slot, the two separators and the last slot. */
  predicate IsFiller(piece: nat)
  {
    piece == 0 || piece == 7 || piece == 8 || piece == 15
  }

  /** The position of a kind among its colour's six slots, king first (pst.cpp:35-99). */
  function KindIndex(k: Kind): (i: nat)
    ensures 1 <= i <= 6
  {
    match k
    case King => 1
    case Pawn => 2
    case Knight => 3
    case Bishop => 4
    case Rook => 5
    case Queen => 6
  }

  /**
   * The slot of a coloured piece, as the comments of pst.cpp lay them out:
   * white king .. white queen in slots 1-6, black king .. black queen in 9-14.
   */
  function Slot(c: Color, k: Kind): (piece: nat)
    ensures piece < 16 && !IsFiller(piece)
    ensures c.Black? <==> piece > 8
  {
    match c
    case White => KindIndex(k)
    case Black => KindIndex(k) + 8
  }

  /** The coloured piece held by a slot that is not a filler: the inverse of Slot. */
  function PieceAt(piece: nat): (ck: (Color, Kind))
    requires piece < 16 && !IsFiller(piece)
    ensures Slot(ck.0, ck.1) == piece
  {
    var c := if piece < 8 then White else Black;
    var base := if piece < 8 then piece else piece - 8;
    var k := if base == 1 then King
      else if base == 2 then Pawn
      else if base == 3 then Knight
      else if base == 4 then Bishop
      else if base == 5 then Rook
      else Queen;
    (c, k)
  }

  /** Distinct coloured pieces occupy distinct slots. */
  lemma SlotInjective(c1: Color, k1: Kind, c2: Color, k2: Kind)
    requires Slot(c1, k1) == Slot(c2, k2)
    ensures c1 == c2 && k1 == k2
  {
  }

  /** The authored white table of a kind. */
  function WhiteTable(k: Kind): Table
  {
    match k
    case King => WhiteKing
    case Pawn => WhitePawn
    case Knight => WhiteKnight
    case Bishop => WhiteBishop
    case Rook => WhiteRook
    case Queen => WhiteQueen
  }

  /** The authored black table of a kind. */
  function BlackTable(k: Kind): Table
  {
    match k
    case King => BlackKing
    case Pawn => BlackPawn
    case Knight => BlackKnight
    case Bishop => BlackBishop
    case Rook => BlackRook
    case Queen => BlackQueen
  }

  /** Slot `Slot(c, k)` of the table holds the authored table of that colour and kind. */
  lemma SlotHolds(c: Color, k: Kind)
    ensures Psq[Slot(c, k)] == if c.White? then WhiteTable(k) else BlackTable(k)
  {
  }

  // ----------------------------------------------------------------------
  // Lookup
  // ----------------------------------------------------------------------

  /**
   * `psq[piece][sq]`: the packed score of the piece in slot `piece` standing on
   * square `sq`, found on rank `sq / 8`, file `sq % 8` of the slot, which is
   * element `sq` of the slot's 64 entries in row-major order.
   */
  function Lookup(piece: nat, sq: nat): (v: int)
    requires piece < 16 && sq < 64
    ensures Rank(sq) < 8 && File(sq) < 8 && sq == 8 * Rank(sq) + File(sq)
    ensures v == Psq[piece][Rank(sq)][File(sq)]
  {
    At(Psq[piece], sq)
  }

  /** The null slot, the two separators and the last slot score zero on every square. */
  lemma FillerSlotsZero(piece: nat, sq: nat)
    requires piece < 16 && sq < 64 && IsFiller(piece)
    ensures Lookup(piece, sq) == 0
  {
  }

  // ----------------------------------------------------------------------
  // The black half is the rank-mirrored negation of the white half
  // ----------------------------------------------------------------------

  /** The black table of a kind: each square gets the negated white entry of its mirrored square. */
  function DeriveBlack(white: Table): (black: Table)
    ensures forall sq | 0 <= sq < 64 :: At(black, Mirror(sq)) == -At(white, sq)
  {
    seq(8, r requires 0 <= r < 8 => seq(8, f requires 0 <= f < 8 => -white[7 - r][f]))
  }

  /** Deriving twice gives back the original table: the white half is as recoverable from the black half. */
  lemma DeriveBlackInvolutive(white: Table)
    ensures DeriveBlack(DeriveBlack(white)) == white
  {
    var twice := DeriveBlack(DeriveBlack(white));
    forall r | 0 <= r < 8
      ensures twice[r] == white[r]
    {
      assert forall f | 0 <= f < 8 :: twice[r][f] == white[r][f];
    }
  }

  /** Each entry of a derived table is the negated white entry of the mirrored square. */
  lemma DeriveBlackEntry(white: Table, sq: nat)
    requires sq < 64
    ensures At(DeriveBlack(white), sq) == -At(white, Mirror(sq))
  {
  }

  /** Square 8 * r + f lies on rank r and file f; its mirror lies on rank 7 - r and file f. */
  lemma SquareOf(r: nat, f: nat)
    requires r < 8 && f < 8
    ensures (8 * r + f) / 8 == r && (8 * r + f) % 8 == f
    ensures Mirror(8 * r + f) / 8 == 7 - r && Mirror(8 * r + f) % 8 == f
  {
  }

  /** A table whose every entry is the negated white entry of the mirrored square is the derived table. */
  lemma DeriveBlackUnique(white: Table, black: Table)
    requires forall sq | 0 <= sq < 64 :: At(black, sq) == -At(white, Mirror(sq))
    ensures black == DeriveBlack(white)
  {
    var derived := DeriveBlack(white);
    forall r | 0 <= r < 8
      ensures black[r] == derived[r]
    {
      forall f | 0 <= f < 8
        ensures black[r][f] == derived[r][f]
      {
        SquareOf(r, f);
        assert At(black, 8 * r + f) == -At(white, Mirror(8 * r + f));
      }
    }
  }

  /** DeriveBlack(white) is the one table holding, on every square, the negated white entry of the mirrored square. */
  lemma DeriveBlackCharacterized(white: Table, black: Table)
    ensures black == DeriveBlack(white) <==> forall sq | 0 <= sq < 64 :: At(black, sq) == -At(white, Mirror(sq))
  {
    if black == DeriveBlack(white) {
      forall sq | 0 <= sq < 64
        ensures At(black, sq) == -At(white, Mirror(sq))
      {
        DeriveBlackEntry(white, sq);
      }
    }
    if forall sq | 0 <= sq < 64 :: At(black, sq) == -At(white, Mirror(sq)) {
      DeriveBlackUnique(white, black);
    }
  }

  /**
   * Rank `r` of `black` holds, file by file, the negated entries of rank 7 - r of `white`.
   * The files are written out rather than quantified over, so that checking a rank of
   * concrete data is a plain computation, cheap and stable across solver seeds; the
   * per-kind lemmas below check the authored tables one rank at a time for the same reason.
   */
  predicate RankNegMirrored(white: Table, black: Table, r: nat)
    requires r < 8
  {
    && black[r][0] == -white[7 - r][0]
    && black[r][1] == -white[7 - r][1]
    && black[r][2] == -white[7 - r][2]
    && black[r][3] == -white[7 - r][3]
    && black[r][4] == -white[7 - r][4]
    && black[r][5] == -white[7 - r][5]
    && black[r][6] == -white[7 - r][6]
    && black[r][7] == -white[7 - r][7]
  }

  /** A rank that satisfies RankNegMirrored gives the relation on each of its files. */
  lemma RankEntry(white: Table, black: Table, r: nat, f: nat)
    requires r < 8 && f < 8
    requires RankNegMirrored(white, black, r)
    ensures black[r][f] == -white[7 - r][f]
  {
  }

  /** A table pair whose every rank satisfies RankNegMirrored is exactly a derived pair. */
  lemma NegMirroredDerived(white: Table, black: Table)
    requires forall r | 0 <= r < 8 :: RankNegMirrored(white, black, r)
    ensures black == DeriveBlack(white)
  {
    var derived := DeriveBlack(white);
    forall r | 0 <= r < 8
      ensures black[r] == derived[r]
    {
      forall f | 0 <= f < 8
        ensures black[r][f] == derived[r][f]
      {
        RankEntry(white, black, r, f);
      }
    }
  }

  /** Each rank of the authored black king (pst.cpp:123-130) negates the mirrored rank of the white king (pst.cpp:37-44). */
  lemma KingRankNegMirrored(r: nat)
    requires r < 8
    ensures RankNegMirrored(WhiteKing, BlackKing, r)
  {
  }

  /** The authored black king is the table derived from the white king. */
  lemma KingDerived()
    ensures BlackKing == DeriveBlack(WhiteKing)
  {
    forall r | 0 <= r < 8
      ensures RankNegMirrored(WhiteKing, BlackKing, r)
    {
      KingRankNegMirrored(r);
    }
    NegMirroredDerived(WhiteKing, BlackKing);
  }

  /** Each rank of the authored black pawn (pst.cpp:134-141) negates the mirrored rank of the white pawn (pst.cpp:48-55). */
  lemma PawnRankNegMirrored(r: nat)
    requires r < 8
    ensures RankNegMirrored(WhitePawn, BlackPawn, r)
  {
  }

  /** The authored black pawn is the table derived from the white pawn. */
  lemma PawnDerived()
    ensures BlackPawn == DeriveBlack(WhitePawn)
  {
    forall r | 0 <= r < 8
      ensures RankNegMirrored(WhitePawn, BlackPawn, r)
    {
      PawnRankNegMirrored(r);
    }
    NegMirroredDerived(WhitePawn, BlackPawn);
  }

  /** Each rank of the authored black knight (pst.cpp:145-152) negates the mirrored rank of the white knight (pst.cpp:59-66). */
  lemma KnightRankNegMirrored(r: nat)
    requires r < 8
    ensures RankNegMirrored(WhiteKnight, BlackKnight, r)
  {
  }

  /** The authored black knight is the table derived from the white knight. */
  lemma KnightDerived()
    ensures BlackKnight == DeriveBlack(WhiteKnight)
  {
    forall r | 0 <= r < 8
      ensures RankNegMirrored(WhiteKnight, BlackKnight, r)
    {
      KnightRankNegMirrored(r);
    }
    NegMirroredDerived(WhiteKnight, BlackKnight);
  }

  /** Each rank of the authored black bishop (pst.cpp:156-163) negates the mirrored rank of the white bishop (pst.cpp:70-77). */
  lemma BishopRankNegMirrored(r: nat)
    requires r < 8
    ensures RankNegMirrored(WhiteBishop, BlackBishop, r)
  {
  }

  /** The authored black bishop is the table derived from the white bishop. */
  lemma BishopDerived()
    ensures BlackBishop == DeriveBlack(WhiteBishop)
  {
    forall r | 0 <= r < 8
      ensures RankNegMirrored(WhiteBishop, BlackBishop, r)
    {
      BishopRankNegMirrored(r);
    }
    NegMirroredDerived(WhiteBishop, BlackBishop);
  }

  /** Each rank of the authored black rook (pst.cpp:167-174) negates the mirrored rank of the white rook (pst.cpp:81-88). */
  lemma RookRankNegMirrored(r: nat)
    requires r < 8
    ensures RankNegMirrored(WhiteRook, BlackRook, r)
  {
  }

  /** The authored black rook is the table derived from the white rook. */
  lemma RookDerived()
    ensures BlackRook == DeriveBlack(WhiteRook)
  {
    forall r | 0 <= r < 8
      ensures RankNegMirrored(WhiteRook, BlackRook, r)
    {
      RookRankNegMirrored(r);
    }
    NegMirroredDerived(WhiteRook, BlackRook);
  }

  /** Each rank of the authored black queen (pst.cpp:178-185) negates the mirrored rank of the white queen (pst.cpp:92-99). */
  lemma QueenRankNegMirrored(r: nat)
    requires r < 8
    ensures RankNegMirrored(WhiteQueen, BlackQueen, r)
  {
  }

  /** The authored black queen is the table derived from the white queen. */
  lemma QueenDerived()
    ensures BlackQueen == DeriveBlack(WhiteQueen)
  {
    forall r | 0 <= r < 8
      ensures RankNegMirrored(WhiteQueen, BlackQueen, r)
    {
      QueenRankNegMirrored(r);
    }
    NegMirroredDerived(WhiteQueen, BlackQueen);
  }

  /** For every kind, the authored black table is the one derived from the authored white table. */
  lemma BlackIsDerived(k: Kind)
    ensures BlackTable(k) == DeriveBlack(WhiteTable(k))
  {
    match k
    case King => KingDerived();
    case Pawn => PawnDerived();
    case Knight => KnightDerived();
    case Bishop => BishopDerived();
    case Rook => RookDerived();
    case Queen => QueenDerived();
  }

  /** The white half is recoverable from the black half by the same derivation. */
  lemma WhiteIsRecoverable(k: Kind)
    ensures WhiteTable(k) == DeriveBlack(BlackTable(k))
  {
    BlackIsDerived(k);
    DeriveBlackInvolutive(WhiteTable(k));
  }

  /** In a derived pair, each entry is the negated entry of the mirrored square of the other table. */
  lemma DerivedEntries(white: Table, black: Table, sq: nat)
    requires black == DeriveBlack(white) && sq < 64
    ensures At(black, sq) == -At(white, Mirror(sq)) && At(white, sq) == -At(black, Mirror(sq))
  {
  }

  /**
   * Mirror-negation on the table itself: for each white slot 1-6, the black slot
   * eight places on holds, on every square, the negated white entry of the
   * rank-mirrored square, and the other way round.
   */
  lemma MirrorNegation(piece: nat, sq: nat)
    requires 1 <= piece <= 6 && sq < 64
    ensures Lookup(piece + 8, sq) == -Lookup(piece, Mirror(sq))
    ensures Lookup(piece, sq) == -Lookup(piece + 8, Mirror(sq))
  {
    var k := PieceAt(piece).1;
    assert Slot(White, k) == piece && Slot(Black, k) == piece + 8;
    SlotHolds(White, k);
    SlotHolds(Black, k);
    BlackIsDerived(k);
    DerivedEntries(WhiteTable(k), BlackTable(k), sq);
  }

  /** Pawns never stand on the first or last rank: both pawn slots score zero on ranks 0 and 7. */
  lemma PawnEdgeRanksZero(c: Color, f: nat)
    requires f < 8
    ensures Lookup(Slot(c, Pawn), f) == 0 && Lookup(Slot(c, Pawn), 56 + f) == 0
  {
  }

  // ----------------------------------------------------------------------
  // Left-right symmetry, and where the table departs from it
  // ----------------------------------------------------------------------

  /**
   * Rank `r` of `t` reads the same from either wing: files f and 7 - f hold equal entries.
   * Written out file by file, like RankNegMirrored, to keep the checks on concrete data cheap.
   */
  predicate RankFileSymmetric(t: Table, r: nat)
    requires r < 8
  {
    && t[r][0] == t[r][7]
    && t[r][1] == t[r][6]
    && t[r][2] == t[r][5]
    && t[r][3] == t[r][4]
  }

  /** On a rank that reads the same from either wing, each square agrees with its file flip. */
  lemma FlipEntry(t: Table, sq: nat)
    requires sq < 64 && RankFileSymmetric(t, sq / 8)
    ensures At(t, sq) == At(t, FlipFile(sq))
  {
  }

  /** Every rank of the white king (pst.cpp:37-44) reads the same from either wing. */
  lemma KingRankFileSymmetric(r: nat)
    requires r < 8
    ensures RankFileSymmetric(WhiteKing, r)
  {
  }

  /** Every rank of the white pawn (pst.cpp:48-55) reads the same from either wing. */
  lemma PawnRankFileSymmetric(r: nat)
    requires r < 8
    ensures RankFileSymmetric(WhitePawn, r)
  {
  }

  /** Every rank of the white knight (pst.cpp:59-66) but rank 6 reads the same from either wing. */
  lemma KnightRankFileSymmetric(r: nat)
    requires r < 8 && r != 6
    ensures RankFileSymmetric(WhiteKnight, r)
  {
  }

  /** Every rank of the white bishop (pst.cpp:70-77) reads the same from either wing. */
  lemma BishopRankFileSymmetric(r: nat)
    requires r < 8
    ensures RankFileSymmetric(WhiteBishop, r)
  {
  }

  /** Every rank of the white rook (pst.cpp:81-88) but rank 6 reads the same from either wing. */
  lemma RookRankFileSymmetric(r: nat)
    requires r < 8 && r != 6
    ensures RankFileSymmetric(WhiteRook, r)
  {
  }

  /** Every rank of the white queen (pst.cpp:92-99) reads the same from either wing. */
  lemma QueenRankFileSymmetric(r: nat)
    requires r < 8
    ensures RankFileSymmetric(WhiteQueen, r)
  {
  }

  /**
   * The squares on which a slot's entry differs from the entry on the file-flipped
   * square: two squares of rank 6 for the white knight and rook (pst.cpp:65, 87),
   * their mirror images on rank 1 for the black knight and rook (pst.cpp:146, 168).
   */
  function FileAsymmetricSquares(piece: nat): (squares: set<nat>)
    ensures forall sq | sq in squares :: sq < 64 && FlipFile(sq) in squares
  {
    if piece == 3 then {50, 53}
    else if piece == 5 then {51, 52}
    else if piece == 11 then {10, 13}
    else if piece == 13 then {11, 12}
    else {}
  }

  /** Rank 6 of the white knight: only files 2 and 5 differ from their flips. */
  lemma KnightRankSix(f: nat)
    requires f < 8
    ensures WhiteKnight[6][f] != WhiteKnight[6][7 - f] <==> f == 2 || f == 5
  {
  }

  /** Rank 6 of the white rook: only files 3 and 4 differ from their flips. */
  lemma RookRankSix(f: nat)
    requires f < 8
    ensures WhiteRook[6][f] != WhiteRook[6][7 - f] <==> f == 3 || f == 4
  {
  }

  /** Where each white table departs from left-right symmetry. */
  lemma WhiteFileAsymmetry(k: Kind, sq: nat)
    requires sq < 64
    ensures At(WhiteTable(k), sq) != At(WhiteTable(k), FlipFile(sq)) <==> sq in FileAsymmetricSquares(KindIndex(k))
  {
    var r, f := sq / 8, sq % 8;
    assert sq == 8 * r + f;
    match k {
      case King =>
        KingRankFileSymmetric(r);
        FlipEntry(WhiteKing, sq);
      case Pawn =>
        PawnRankFileSymmetric(r);
        FlipEntry(WhitePawn, sq);
      case Knight =>
        if r == 6 {
          KnightRankSix(f);
        } else {
          KnightRankFileSymmetric(r);
          FlipEntry(WhiteKnight, sq);
        }
      case Bishop =>
        BishopRankFileSymmetric(r);
        FlipEntry(WhiteBishop, sq);
      case Rook =>
        if r == 6 {
          RookRankSix(f);
        } else {
          RookRankFileSymmetric(r);
          FlipEntry(WhiteRook, sq);
        }
      case Queen =>
        QueenRankFileSymmetric(r);
        FlipEntry(WhiteQueen, sq);
    }
  }

  /** The asymmetric squares of a black slot are the rank mirrors of those of its white slot. */
  lemma AsymmetricSquaresMirrored(piece: nat, sq: nat)
    requires 1 <= piece <= 6 && sq < 64
    ensures Mirror(sq) in FileAsymmetricSquares(piece) <==> sq in FileAsymmetricSquares(piece + 8)
  {
  }

  /** A derived table departs from left-right symmetry on the mirror images of the squares where its white table does. */
  lemma DeriveBlackFlip(white: Table, sq: nat)
    requires sq < 64
    ensures At(DeriveBlack(white), sq) != At(DeriveBlack(white), FlipFile(sq))
        <==> At(white, Mirror(sq)) != At(white, FlipFile(Mirror(sq)))
  {
  }

  /** Where each black table departs from left-right symmetry, inherited from the white table. */
  lemma BlackFileAsymmetry(k: Kind, sq: nat)
    requires sq < 64
    ensures At(BlackTable(k), sq) != At(BlackTable(k), FlipFile(sq)) <==> sq in FileAsymmetricSquares(KindIndex(k) + 8)
  {
    BlackIsDerived(k);
    DeriveBlackFlip(WhiteTable(k), sq);
    WhiteFileAsymmetry(k, Mirror(sq));
    AsymmetricSquaresMirrored(KindIndex(k), sq);
  }

  /**
   * The table is not left-right symmetric, and this says exactly where: in every
   * slot, the entry on a square differs from the entry on the file-flipped square
   * precisely on the squares FileAsymmetricSquares lists.
   */
  lemma FileAsymmetry(piece: nat, sq: nat)
    requires piece < 16 && sq < 64
    ensures Lookup(piece, sq) != Lookup(piece, FlipFile(sq)) <==> sq in FileAsymmetricSquares(piece)
  {
    if IsFiller(piece) {
      FillerSlotsZero(piece, sq);
      FillerSlotsZero(piece, FlipFile(sq));
    } else {
      var ck := PieceAt(piece);
      SlotHolds(ck.0, ck.1);
      if ck.0.White? {
        WhiteFileAsymmetry(ck.1, sq);
      } else {
        BlackFileAsymmetry(ck.1, sq);
      }
    }
  }

  // ----------------------------------------------------------------------
  // Particular entries
  // ----------------------------------------------------------------------

  /** A white king on e1 (square 4) and a black king on e8 (square 60) score exactly opposite. */
  lemma KingsOnHomeSquares()
    ensures Mirror(4) == 60
    ensures Lookup(Slot(White, King), 4) == -53216318
    ensures Lookup(Slot(Black, King), 60) == 53216318
  {
  }

  /** A white knight on a8 (square 56) and a black knight on a1 (square 0) score exactly opposite. */
  lemma KnightsInCorners()
    ensures Mirror(56) == 0
    ensures Lookup(Slot(White, Knight), 56) == -135660149
    ensures Lookup(Slot(Black, Knight), 0) == 135660149
  {
  }

  /**
   * The entries that break left-right symmetry: knight c7/f7 (squares 50, 53) and
   * rook d7/e7 (squares 51, 52) differ, and their black counterparts on
   * c2/f2 and d2/e2 still hold the negated values.
   */
  lemma OffCentreEntries()
    ensures Lookup(Slot(White, Knight), 50) == -2097176 && Lookup(Slot(White, Knight), 53) == 131064
    ensures Lookup(Slot(White, Rook), 51) == 9240597 && Lookup(Slot(White, Rook), 52) == 7929877
    ensures Lookup(Slot(Black, Knight), 10) == 2097176 && Lookup(Slot(Black, Knight), 13) == -131064
    ensures Lookup(Slot(Black, Rook), 11) == -9240597 && Lookup(Slot(Black, Rook), 12) == -7929877
  {
  }
}
