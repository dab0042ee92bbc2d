# better-princess game state, in Dafny

A model of the state machine of a jewelry-collecting board game
(`bprincess/gamestate.py`): the saturating earring counter, the 16-square
cyclic board, the mutable player object with its move, toggle and
square-effect rules, its score and win condition, and the game object that
applies a square across a list of players.

Modules, one per part of the source file:

- `Earrings` (`earrings.dfy`): `EarringCount` with `Value`, `Increment`,
  `Decrement`.
- `Board` (`board.dfy`): `BoardSpaceType` and the constant `GameBoard`.
  `SPACE_DISTRIBUTION`, a `Counter` over the board, becomes the multiset of
  the board.
- `Player` (`player.dfy`): the class `PlayerState`, whose methods assign its
  fields in place as the Python dataclass does. Its fields read as a value
  form a `Snapshot`. Each method is proved to act like a pure function on
  snapshots: `Moved`, `Toggled` (`_toggle_jewelry`) or `Applied`
  (`apply_board_space`). `Score` and `HasWon` are the two properties of the
  dataclass. The lemmas state what the rules do to the pieces and to the
  score.
- `Game` (`game.dfy`): the class `GameState` over a sequence of
  `PlayerState` references, which may alias one another and the player
  passed in.

These behaviours of the code are modelled as written:

- The Crown square assigns the attribute `crown`, and the Necklace square
  assigns `neckace`. Neither is a dataclass field, and neither is `tiara` or
  `necklace`. They are the two extra fields `crown` and `neckace`, which
  `Score` ignores. So these two squares never change the score.
- `_toggle_jewelry` only touches `clear_ring` when removing. Removing
  `clear_ring` raises the score by one.
- In `GameState.apply_board_space`, the loops rebind the parameter name
  `player`. After a Crown or Mystery Ring loop over a non-empty list, the
  final call acts on the last player of the list, not on the argument. The
  function `Game.Target` names the object the call acts on.

## Model

| member | source | states |
|---|---|---|
| `Earrings.EarringCount.Value` | bprincess/gamestate.py:9-11 | the integer value of a member is 0, 1 or 2 |
| `Earrings.EarringCount.Increment` | bprincess/gamestate.py:13-17 | the value goes up by one, saturating at 2 |
| `Earrings.EarringCount.Decrement` | bprincess/gamestate.py:19-23 | the value goes down by one, saturating at 0 |
| `Earrings.ValueInjective` | bprincess/gamestate.py:8-11 | the three members have the distinct values 0, 1, 2 and are determined by them |
| `Earrings.IncrementThenDecrement` | bprincess/gamestate.py:13-23 | increment then decrement returns the value, except at TWO, which becomes ONE |
| `Earrings.DecrementThenIncrement` | bprincess/gamestate.py:13-23 | decrement then increment returns the value, except at ZERO, which becomes ONE |
| `Board.LapHoldsEachTypeOnce` | bprincess/gamestate.py:38-45 | the first eight squares hold each of the eight square types once |
| `Board.SpaceDistribution` | bprincess/gamestate.py:37-57 | the board has 16 squares, its second half repeats its first, and each type occurs exactly twice |
| `Player.Bit` | bprincess/gamestate.py:118 | the term a piece adds to the score is at most 1, and it is 1 exactly when the piece is held |
| `Player.CountTrue` | bprincess/gamestate.py:118 | the number of pieces worn is at most the number of pieces |
| `Player.CountFlags` | bprincess/gamestate.py:116-119 | the count over the list of the four pieces is the sum over tiara, bracelet, necklace and ring of 1 for each held |
| `Player.FirstIndex` | bprincess/gamestate.py:125-132 | the index found holds the value sought, and no earlier entry does (the length when none does) |
| `Player.FirstFlag` | bprincess/gamestate.py:125-132 | the first piece in the order tiara, bracelet, necklace, ring that is in a given state |
| `Player.Score` | bprincess/gamestate.py:114-119 | the score lies in [-1, 6], and it is -1 exactly when only the mystery ring is held |
| `Player.HasWon` | bprincess/gamestate.py:75-77 | a player has won exactly when all four pieces and both earrings are held and the mystery ring is not |
| `Player.ScoreExamples` | tests/test_PlayerState.py:28-69 | the scores of the hand-built players of the test suite: 0, 1, 2, -1, 0, 5 and 6 |
| `Player.Moved` | bprincess/gamestate.py:79-81 | the new position lies in [0, 16), is congruent to the old position plus the distance, and nothing else changes |
| `Player.MovedTwice` | bprincess/gamestate.py:79-81 | moving by a and then by b is the same as moving by a + b |
| `Player.MovedByLaps` | bprincess/gamestate.py:79-81 | moving by a whole number of laps, zero included, from a square of the board, changes nothing |
| `Player.Toggled` | bprincess/gamestate.py:121-137 | a toggle never moves the player or touches the stray attributes; a removal always leaves `clear_ring` unset, and an addition never changes it |
| `Player.Applied` | bprincess/gamestate.py:140-157 | no square changes the board position |
| `Player.ToggleAdd` | bprincess/gamestate.py:121-137 | adding sets the first piece not held, or adds an earring when all four are held; nothing else changes, `clear_ring` included; the score rises by one unless everything is already held |
| `Player.ToggleRemove` | bprincess/gamestate.py:121-137 | removing clears `clear_ring` first, which raises the score by one; otherwise it clears the first piece held, or otherwise removes an earring if there is one; nothing else changes |
| `Player.AppliedCrownOrNecklace` | bprincess/gamestate.py:144-151 | the Crown and Necklace squares leave all four pieces, the mystery ring, the earrings and the score unchanged |
| `Player.AppliedPieceSquares` | bprincess/gamestate.py:142-155 | the Bracelet, Ring and Earring squares raise the score by one unless that piece is already held in full; the Mystery Ring square lowers it by one unless the mystery ring is already set |
| `Player.AppliedPutBack` | bprincess/gamestate.py:152-153 | Put Back raises the score by one when it clears a mystery ring, leaves it when nothing is held, and otherwise lowers it by one |
| `Player.AppliedTakeAnyPiece` | bprincess/gamestate.py:156-157 | Take Any Piece raises the score by one unless every piece and both earrings are already held |
| `Player.JewelryIndex` | bprincess/gamestate.py:62-64 | each jewelry combination gets a number below 96 |
| `Player.JewelryOfIndex` | bprincess/gamestate.py:62-64 | the combination numbered i: numbering it gives i back, so the 96 numbers name 96 distinct combinations; it is at position 0, without stray attributes |
| `Player.JewelryIndexRoundTrip` | bprincess/gamestate.py:62-64 | numbering a combination and then decoding the number gives the combination back |
| `Player.PlayerState.constructor` | bprincess/gamestate.py:60-73 | every field takes its argument or its default; the stray attributes start out unset |
| `Player.PlayerState.Move` | bprincess/gamestate.py:79-81 | the new state is `Moved` of the old one; the square returned is the board square at the new position |
| `Player.PlayerState.MoveAndPlay` | bprincess/gamestate.py:83-86 | the new state is the landed-on square applied to the moved state; the result is its score |
| `Player.PlayerState.ToggleJewelry` | bprincess/gamestate.py:121-137 | the new state is `Toggled` of the old one |
| `Player.PlayerState.ApplyBoardSpace` | bprincess/gamestate.py:140-157 | the new state is `Applied` of the old one |
| `Player.ToggleUpToVictory` | tests/test_PlayerState.py:18-25 | six adds from a fresh player give the scores 1, 2, 3, 4, 5, 6, and the player has then won |
| `Game.Reset` | bprincess/gamestate.py:165-171 | a reset changes no attribute other than the stray `crown` and `clear_ring` |
| `Game.ResetIdempotent` | bprincess/gamestate.py:165-171 | resetting twice is resetting once, so a player listed twice ends as if listed once |
| `Game.ResetScore` | bprincess/gamestate.py:169-171 | the reset raises the score of a player whose mystery ring it clears, and leaves every other score unchanged |
| `Game.Target` | bprincess/gamestate.py:164-173 | the object the final call acts on is the argument or one of the listed players, so it lies in the method's frame |
| `Game.GameState.constructor` | bprincess/gamestate.py:160-162 | the game holds the given list of players |
| `Game.GameState.ResetPlayers` | bprincess/gamestate.py:165-171 | every listed player is reset, and the loop variable is left on the last one |
| `Game.GameState.ApplyBoardSpace` | bprincess/gamestate.py:164-173 | Mystery Ring on a non-empty list clears every ring and then sets the last player's; Crown does the same with the stray `crown`; any other square changes only the argument |

## Left out

- `main.py`: the random rolls, the simulation driver and the printed
  statistics. It also names two player variants, `AlreadyWornTokensPlayer`
  and `NoMysteryRingPlayer`, that `gamestate.py` does not define. The
  token-gated rule, the shuffled board and the board without a mystery ring
  are therefore not modelled either.
- `PlayerState.generate_all_states`: it calls `is_win()`, which does not
  exist, so it raises before it returns anything. Only the count of
  jewelry combinations its docstring gives is modelled, by the bijection
  `JewelryIndex`/`JewelryOfIndex` with 0..95.
- `import random` and the `collections.Counter` object. The board's
  distribution is the multiset `multiset(GameBoard)`.
- Python creates the stray attributes `crown` and `neckace` on their first
  assignment, and until then they do not exist. The model starts them as
  false. No code of the core reads them.
- The mutable global list `GAME_BOARD` is a constant here, because nothing
  in the core assigns to it.
- The two loops of `GameState.apply_board_space`, one for the Crown square
  and one for the Mystery Ring square, are the single loop of the separate
  method `ResetPlayers`. It tests the square type on each pass to choose
  the attribute to reset, and returns the rebound loop variable. The effect
  on every player, and the object the final call acts on, are the same as
  with the two loops.
