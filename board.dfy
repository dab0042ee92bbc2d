/** The square types and the fixed cyclic board (bprincess/gamestate.py,
    BoardSpaceTypes, GAME_BOARD and SPACE_DISTRIBUTION). */
module Board {

  /** The effect a square of the board has on the player landing on it. */
  datatype BoardSpaceType =
    | Necklace
    | Bracelet
    | Ring
    | Earring
    | Crown
    | MysteryRing
    | PutBack
    | TakeAnyPiece

  /** The board, in order; a position is reduced modulo its length. */
  const GameBoard: seq<BoardSpaceType> := [
    Necklace, PutBack, Bracelet, TakeAnyPiece, Ring, MysteryRing, Earring, Crown,
    Necklace, PutBack, Bracelet, TakeAnyPiece, Ring, MysteryRing, Earring, Crown
  ]

  /** The square types of one lap of the board, in board order. */
  const Lap: seq<BoardSpaceType> :=
    [Necklace, PutBack, Bracelet, TakeAnyPiece, Ring, MysteryRing, Earring, Crown]

  /** One lap holds each square type exactly once. */
  lemma LapHoldsEachTypeOnce(t: BoardSpaceType)
    ensures multiset(Lap)[t] == 1
  {
  }

  /** The board has sixteen squares, the second lap repeats the first, and
      every square type occurs on exactly two of them (the count a Counter over
      the board gives): each type is equally likely to be landed on. */
  lemma SpaceDistribution(t: BoardSpaceType)
    ensures |GameBoard| == 16
    ensures GameBoard == Lap + Lap
    ensures multiset(GameBoard)[t] == 2
  {
    LapHoldsEachTypeOnce(t);
  }
}
