/** One player's jewelry and position, and the rules that change them
    (bprincess/gamestate.py, class PlayerState).

    The Python dataclass is mutable and its methods assign its fields in
    place; it is modelled by the class PlayerState below. Its state, read as
    a value, is a Snapshot, and each method is proved to act on that value as
    a pure function of this module does. The properties of the rules are
    lemmas about those functions. */
module Player {
  import opened Earrings
  import opened Board

  /** Every attribute a player object may carry. The first seven are the
      dataclass fields. `crown` and `neckace` are the stray attributes that
      the Crown and Necklace squares create (the source assigns those names,
      not `tiara` and `necklace`); an attribute not yet created reads as
      false here. */
  datatype Snapshot = Snapshot(
    tiara: bool,
    bracelet: bool,
    necklace: bool,
    ring: bool,
    clearRing: bool,
    earrings: EarringCount,
    boardPosition: int,
    crown: bool,
    neckace: bool)

  /** The four single pieces, in the priority order that scoring and the
      toggle both use. */
  function Flags(s: Snapshot): seq<bool>
  {
    [s.tiara, s.bracelet, s.necklace, s.ring]
  }

  /** The term a held piece adds to the score: 1 when held, 0 otherwise. */
  function Bit(b: bool): (n: nat)
    ensures n <= 1
    ensures n == 1 <==> b
  {
    if b then 1 else 0
  }

  /** How many entries of `xs` are true. */
  function CountTrue(xs: seq<bool>): (n: nat)
    ensures n <= |xs|
  {
    if xs == [] then 0 else Bit(xs[0]) + CountTrue(xs[1..])
  }

  /** The index of the first entry of `xs` equal to `b`, or |xs| if none is. */
  function FirstIndex(xs: seq<bool>, b: bool): (k: nat)
    ensures k <= |xs|
    ensures forall j :: 0 <= j < k ==> xs[j] != b
    ensures k < |xs| ==> xs[k] == b
  {
    if xs == [] then 0 else if xs[0] == b then 0 else 1 + FirstIndex(xs[1..], b)
  }

  /** The first of the four single pieces whose state is `b`, one field at a
      time. */
  lemma FirstFlag(s: Snapshot, b: bool)
    ensures FirstIndex(Flags(s), b) ==
      if s.tiara == b then 0 else if s.bracelet == b then 1
      else if s.necklace == b then 2 else if s.ring == b then 3 else 4
  {
    var f := Flags(s);
    assert f[0] == s.tiara && f[1] == s.bracelet && f[2] == s.necklace && f[3] == s.ring;
  }

  /** The property `score`: earrings, plus one per single piece worn, minus
      one for an unresolved mystery ring. */
  function Score(s: Snapshot): (r: int)
    ensures -1 <= r <= 6
    ensures r == -1 <==>
      s.clearRing && s.earrings == Zero && !s.tiara && !s.bracelet && !s.necklace && !s.ring
  {
    CountFlags(s);
    s.earrings.Value() + CountTrue(Flags(s)) - (if s.clearRing then 1 else 0)
  }

  /** The count of single pieces, one field at a time. */
  lemma CountFlags(s: Snapshot)
    ensures CountTrue(Flags(s)) == Bit(s.tiara) + Bit(s.bracelet) + Bit(s.necklace) + Bit(s.ring)
  {
    var f := Flags(s);
    assert CountTrue(f) == Bit(s.tiara) + CountTrue(f[1..]);
    assert f[1..] == [s.bracelet, s.necklace, s.ring];
    assert CountTrue(f[1..]) == Bit(s.bracelet) + CountTrue([s.necklace, s.ring]) by {
      assert [s.bracelet, s.necklace, s.ring][1..] == [s.necklace, s.ring];
    }
    assert CountTrue([s.necklace, s.ring]) == Bit(s.necklace) + CountTrue([s.ring]) by {
      assert [s.necklace, s.ring][1..] == [s.ring];
    }
    assert CountTrue([s.ring]) == Bit(s.ring) + CountTrue([]) by {
      assert [s.ring][1..] == [];
    }
  }

  /** The property `has_won`. */
  function HasWon(s: Snapshot): (won: bool)
    ensures won <==>
      s.tiara && s.bracelet && s.necklace && s.ring && !s.clearRing && s.earrings == Two
  {
    CountFlags(s);
    Score(s) == 6
  }

  /** The effect of `move`: the position advanced by `distance` and reduced
      modulo the board length (Python's `%` with a positive divisor, like
      Dafny's, never yields a negative remainder). */
  function Moved(s: Snapshot, distance: int): (r: Snapshot)
    ensures 0 <= r.boardPosition < |GameBoard|
    ensures (r.boardPosition - (s.boardPosition + distance)) % |GameBoard| == 0
    ensures r.(boardPosition := s.boardPosition) == s
  {
    s.(boardPosition := (s.boardPosition + distance) % |GameBoard|)
  }

  /** The effect of `_toggle_jewelry`: put on (remove false) or take off
      (remove true) one piece. Taking off prefers the mystery ring; putting
      on never touches it. */
  function Toggled(s: Snapshot, remove: bool): (r: Snapshot)
    ensures r.boardPosition == s.boardPosition && r.crown == s.crown && r.neckace == s.neckace
    ensures remove ==> !r.clearRing
    ensures !remove ==> r.clearRing == s.clearRing
  {
    if remove && s.clearRing == remove then s.(clearRing := !remove)
    else if s.tiara == remove then s.(tiara := !remove)
    else if s.bracelet == remove then s.(bracelet := !remove)
    else if s.necklace == remove then s.(necklace := !remove)
    else if s.ring == remove then s.(ring := !remove)
    else if remove then s.(earrings := s.earrings.Decrement())
    else s.(earrings := s.earrings.Increment())
  }

  /** The effect of `apply_board_space` for one player. */
  function Applied(s: Snapshot, space: BoardSpaceType): (r: Snapshot)
    ensures r.boardPosition == s.boardPosition
  {
    match space
    case Bracelet => s.(bracelet := true)
    case Crown => s.(crown := true)
    case Earring => s.(earrings := s.earrings.Increment())
    case MysteryRing => s.(clearRing := true)
    case Necklace => s.(neckace := true)
    case PutBack => Toggled(s, true)
    case Ring => s.(ring := true)
    case TakeAnyPiece => Toggled(s, false)
  }

  // ---------------------------------------------------------------------
  // Properties of the rules

  /** The scores the test suite checks for hand-built players. */
  lemma ScoreExamples()
    ensures Score(Snapshot(false, false, false, false, false, Zero, 0, false, false)) == 0
    ensures Score(Snapshot(false, false, false, false, false, One, 0, false, false)) == 1
    ensures Score(Snapshot(false, false, false, false, false, Two, 0, false, false)) == 2
    ensures Score(Snapshot(false, false, false, false, true, Zero, 0, false, false)) == -1
    ensures Score(Snapshot(true, false, false, false, true, Zero, 0, false, false)) == 0
    ensures Score(Snapshot(true, true, true, true, true, Two, 0, false, false)) == 5
    ensures Score(Snapshot(true, true, true, true, false, Two, 0, false, false)) == 6
  {
  }

  /** Moving twice is moving by the sum of the distances. */
  lemma MovedTwice(s: Snapshot, a: int, b: int)
    ensures Moved(Moved(s, a), b) == Moved(s, a + b)
  {
  }

  /** Moving by a whole number of laps from a square of the board stays on
      that square; in particular moving by zero does nothing. */
  lemma MovedByLaps(s: Snapshot, laps: int)
    requires 0 <= s.boardPosition < |GameBoard|
    ensures Moved(s, laps * |GameBoard|) == s
  {
  }

  /** Putting a piece on sets the first piece not worn, in the order tiara,
      bracelet, necklace, ring, or, when all four are worn, adds an earring.
      Nothing else changes, the mystery ring included, and the score goes up
      by one unless the player already holds everything but the mystery ring
      allows. */
  lemma {:induction false} ToggleAdd(s: Snapshot)
    ensures var r := Toggled(s, false);
      var k := FirstIndex(Flags(s), false);
      && r.clearRing == s.clearRing
      && r.boardPosition == s.boardPosition
      && r.crown == s.crown && r.neckace == s.neckace
      && (k < 4 ==> Flags(r) == Flags(s)[k := true] && r.earrings == s.earrings)
      && (k == 4 ==> Flags(r) == Flags(s) && r.earrings == s.earrings.Increment())
      && Score(r) == Score(s) + (if k == 4 && s.earrings == Two then 0 else 1)
  {
    var r := Toggled(s, false);
    var f := Flags(s);
    var k := FirstIndex(f, false);
    FirstFlag(s, false);
    CountFlags(s);
    CountFlags(r);
    if k < 4 {
      assert f[0] == s.tiara && f[1] == s.bracelet && f[2] == s.necklace && f[3] == s.ring;
      assert Flags(r) == f[k := true];
    }
  }

  /** Taking a piece off clears the mystery ring if it is set, which RAISES
      the score by one; otherwise it clears the first piece worn, in the order
      tiara, bracelet, necklace, ring; otherwise it removes an earring, if
      there is one. Nothing else changes. */
  lemma {:induction false} ToggleRemove(s: Snapshot)
    ensures var r := Toggled(s, true);
      var k := FirstIndex(Flags(s), true);
      && r.boardPosition == s.boardPosition
      && r.crown == s.crown && r.neckace == s.neckace
      && !r.clearRing
      && (s.clearRing ==>
            Flags(r) == Flags(s) && r.earrings == s.earrings && Score(r) == Score(s) + 1)
      && (!s.clearRing && k < 4 ==>
            Flags(r) == Flags(s)[k := false] && r.earrings == s.earrings
            && Score(r) == Score(s) - 1)
      && (!s.clearRing && k == 4 ==>
            Flags(r) == Flags(s) && r.earrings == s.earrings.Decrement()
            && Score(r) == Score(s) - (if s.earrings == Zero then 0 else 1))
  {
    var r := Toggled(s, true);
    var f := Flags(s);
    var k := FirstIndex(f, true);
    FirstFlag(s, true);
    CountFlags(s);
    CountFlags(r);
    if !s.clearRing && k < 4 {
      assert f[0] == s.tiara && f[1] == s.bracelet && f[2] == s.necklace && f[3] == s.ring;
      assert Flags(r) == f[k := false];
    }
  }

  /** The Crown and Necklace squares touch only the stray attributes: no
      piece changes, so neither does the score. */
  lemma AppliedCrownOrNecklace(s: Snapshot, space: BoardSpaceType)
    requires space == Crown || space == Necklace
    ensures var r := Applied(s, space);
      && Flags(r) == Flags(s) && r.clearRing == s.clearRing && r.earrings == s.earrings
      && Score(r) == Score(s)
  {
    CountFlags(s);
    CountFlags(Applied(s, space));
  }

  /** The Bracelet, Ring, Earring and Mystery Ring squares change the score
      by one, unless the piece they give is already held in full. */
  lemma AppliedPieceSquares(s: Snapshot)
    ensures Score(Applied(s, Bracelet)) == Score(s) + (if s.bracelet then 0 else 1)
    ensures Score(Applied(s, Ring)) == Score(s) + (if s.ring then 0 else 1)
    ensures Score(Applied(s, Earring)) == Score(s) + (if s.earrings == Two then 0 else 1)
    ensures Score(Applied(s, MysteryRing)) == Score(s) - (if s.clearRing then 0 else 1)
  {
    CountFlags(s);
    CountFlags(Applied(s, Bracelet));
    CountFlags(Applied(s, Ring));
    CountFlags(Applied(s, Earring));
    CountFlags(Applied(s, MysteryRing));
  }

  /** A Put Back square raises the score when it clears a mystery ring and
      otherwise lowers it by one, unless the player holds nothing at all. */
  lemma AppliedPutBack(s: Snapshot)
    ensures Score(Applied(s, PutBack)) == Score(s) +
      if s.clearRing then 1
      else if !s.tiara && !s.bracelet && !s.necklace && !s.ring && s.earrings == Zero then 0
      else -1
  {
    ToggleRemove(s);
    FirstFlag(s, true);
  }

  /** A Take Any Piece square raises the score by one, unless every piece is
      already held. */
  lemma AppliedTakeAnyPiece(s: Snapshot)
    ensures Score(Applied(s, TakeAnyPiece)) == Score(s) +
      if s.tiara && s.bracelet && s.necklace && s.ring && s.earrings == Two then 0 else 1
  {
    ToggleAdd(s);
    FirstFlag(s, false);
  }

  /** The jewelry of a player takes 2 * 2 * 2 * 2 * 2 * 3 = 96 values: the
      numbering below (a mixed-radix number whose digits are the five flags
      and the earrings) is a bijection between them and 0..95. */
  function JewelryIndex(s: Snapshot): (i: nat)
    ensures i < 96
  {
    48 * Bit(s.tiara) + 24 * Bit(s.bracelet) + 12 * Bit(s.necklace) + 6 * Bit(s.ring)
    + 3 * Bit(s.clearRing) + s.earrings.Value()
  }

  /** The jewelry combination numbered `i`, at position 0 and without stray
      attributes. Numbering it gives `i` back, so the 96 numbers name 96
      distinct combinations. */
  function JewelryOfIndex(i: nat): (s: Snapshot)
    requires i < 96
    ensures JewelryIndex(s) == i
    ensures s.boardPosition == 0 && !s.crown && !s.neckace
  {
    var i1 := if i >= 48 then i - 48 else i;
    var i2 := if i1 >= 24 then i1 - 24 else i1;
    var i3 := if i2 >= 12 then i2 - 12 else i2;
    var i4 := if i3 >= 6 then i3 - 6 else i3;
    var e := if i4 >= 3 then i4 - 3 else i4;
    Snapshot(i >= 48, i1 >= 24, i2 >= 12, i3 >= 6, i4 >= 3,
             if e == 0 then Zero else if e == 1 then One else Two, 0, false, false)
  }

  /** Numbering a combination and decoding the number gives it back. */
  lemma JewelryIndexRoundTrip(s: Snapshot)
    ensures JewelryOfIndex(JewelryIndex(s)) == s.(boardPosition := 0, crown := false, neckace := false)
  {
    ValueInjective(JewelryOfIndex(JewelryIndex(s)).earrings, s.earrings);
  }

  // ---------------------------------------------------------------------
  // The mutable player

  /** A player object whose methods update its attributes in place. */
  class PlayerState {
    var tiara: bool
    var bracelet: bool
    var necklace: bool
    var ring: bool
    var clearRing: bool
    var earrings: EarringCount
    var boardPosition: int
    /** Stray attribute written by the Crown square. */
    var crown: bool
    /** Stray attribute written by the Necklace square. */
    var neckace: bool

    /** The current attributes, read as a value. */
    function View(): Snapshot
      reads this
    {
      Snapshot(tiara, bracelet, necklace, ring, clearRing, earrings, boardPosition, crown, neckace)
    }

    /** The dataclass constructor, every field optional. */
    constructor (tiara: bool := false, bracelet: bool := false, necklace: bool := false,
                 ring: bool := false, clearRing: bool := false, earrings: EarringCount := Zero,
                 boardPosition: int := 0)
      ensures View() == Snapshot(tiara, bracelet, necklace, ring, clearRing, earrings,
                                 boardPosition, false, false)
    {
      this.tiara := tiara;
      this.bracelet := bracelet;
      this.necklace := necklace;
      this.ring := ring;
      this.clearRing := clearRing;
      this.earrings := earrings;
      this.boardPosition := boardPosition;
      this.crown := false;
      this.neckace := false;
    }

    /** `move`: advance around the board and return the square landed on. */
    method Move(distance: int) returns (space: BoardSpaceType)
      modifies this
      ensures View() == Moved(old(View()), distance)
      ensures 0 <= boardPosition < |GameBoard| && space == GameBoard[boardPosition]
    {
      boardPosition := (boardPosition + distance) % |GameBoard|;
      space := GameBoard[boardPosition];
    }

    /** `move_and_play`: move, apply the square landed on, return the score. */
    method MoveAndPlay(distance: int) returns (score: int)
      modifies this
      ensures 0 <= boardPosition < |GameBoard|
      ensures View() == Applied(Moved(old(View()), distance), GameBoard[boardPosition])
      ensures score == Score(View())
    {
      var newPosition := Move(distance);
      ApplyBoardSpace(newPosition);
      score := Score(View());
    }

    /** `_toggle_jewelry`: put on or take off one piece, by fixed priority. */
    method ToggleJewelry(remove: bool := false)
      modifies this
      ensures View() == Toggled(old(View()), remove)
    {
      if remove && clearRing == remove {
        clearRing := !remove;
      } else if tiara == remove {
        tiara := !remove;
      } else if bracelet == remove {
        bracelet := !remove;
      } else if necklace == remove {
        necklace := !remove;
      } else if ring == remove {
        ring := !remove;
      } else if remove {
        earrings := earrings.Decrement();
      } else {
        earrings := earrings.Increment();
      }
    }

    /** `apply_board_space`: the effect of the square landed on. */
    method ApplyBoardSpace(space: BoardSpaceType)
      modifies this
      ensures View() == Applied(old(View()), space)
    {
      match space
      case Bracelet => bracelet := true;
      case Crown => crown := true;
      case Earring => earrings := earrings.Increment();
      case MysteryRing => clearRing := true;
      case Necklace => neckace := true;
      case PutBack => ToggleJewelry(remove := true);
      case Ring => ring := true;
      case TakeAnyPiece => ToggleJewelry(remove := false);
    }
  }

  /** From a fresh player, six pieces put on in priority order raise the
      score through 1, 2, ..., 6, and the player has then won. */
  method ToggleUpToVictory() returns (scores: seq<int>, won: bool)
    ensures scores == [1, 2, 3, 4, 5, 6]
    ensures won
  {
    var player := new PlayerState();
    scores := [];
    var i := 0;
    while i < 6
      invariant 0 <= i <= 6
      invariant |scores| == i
      invariant forall j :: 0 <= j < i ==> scores[j] == j + 1
      invariant Score(player.View()) == i
      invariant player.View() == Snapshot(i >= 1, i >= 2, i >= 3, i >= 4, false,
                                          if i <= 4 then Zero else if i == 5 then One else Two,
                                          0, false, false)
    {
      player.ToggleJewelry();
      CountFlags(player.View());
      scores := scores + [Score(player.View())];
      i := i + 1;
    }
    won := HasWon(player.View());
  }
}
