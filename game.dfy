/** The effect of a square across all players (bprincess/gamestate.py,
    class GameState). */
module Game {
  import opened Board
  import opened Player

  /** What the first loop of GameState.apply_board_space does to each
      player in the list: the Crown square resets the stray `crown`
      attribute, the Mystery Ring square takes every mystery ring away, and
      no other square has a loop. */
  function Reset(s: Snapshot, space: BoardSpaceType): (r: Snapshot)
    ensures r.(crown := s.crown, clearRing := s.clearRing) == s
  {
    match space
    case Crown => s.(crown := false)
    case MysteryRing => s.(clearRing := false)
    case _ => s
  }

  /** Resetting twice is resetting once, so a player listed twice ends up
      as if listed once. */
  lemma ResetIdempotent(s: Snapshot, space: BoardSpaceType)
    ensures Reset(Reset(s, space), space) == Reset(s, space)
  {
  }

  /** The reset raises the score of a player whose mystery ring it takes
      away, and leaves every other score as it was. */
  lemma ResetScore(s: Snapshot, space: BoardSpaceType)
    ensures Score(Reset(s, space)) == Score(s) + (if space == MysteryRing && s.clearRing then 1 else 0)
  {
    CountFlags(s);
    CountFlags(Reset(s, space));
  }

  /** The object the final call of GameState.apply_board_space acts on. The
      loops rebind the name of the parameter, so after a Crown or Mystery Ring
      loop over a non-empty list it is the last player of the list, not the
      player passed in. */
  function Target(players: seq<PlayerState>, player: PlayerState, space: BoardSpaceType): (t: PlayerState)
    ensures t == player || t in players
  {
    if (space == Crown || space == MysteryRing) && |players| > 0 then players[|players| - 1] else player
  }

  /** The game: the list of player objects. Players are references, so the
      list may hold the same object twice and may or may not hold the player
      a square is applied for. */
  class GameState {
    var players: seq<PlayerState>

    constructor (players: seq<PlayerState>)
      ensures this.players == players
    {
      this.players := players;
    }

    /** `apply_board_space`: apply a square for `player`, after resetting
        every player's stray crown or mystery ring for the Crown and Mystery
        Ring squares. The final effect lands on Target(...), which is the
        last player of the list after such a reset. */
    method ApplyBoardSpace(player: PlayerState, space: BoardSpaceType)
      modifies players, player
      ensures var t := Target(players, player, space);
        && t.View() == Applied(Reset(old(t.View()), space), space)
        && (forall i :: 0 <= i < |players| && players[i] != t ==>
              players[i].View() == Reset(old(players[i].View()), space))
        && (player != t && player !in players ==> player.View() == old(player.View()))
      // The consequences for the two squares that loop:
      ensures space == MysteryRing && |players| > 0 ==>
        && players[|players| - 1].clearRing
        && forall i :: 0 <= i < |players| && players[i] != players[|players| - 1] ==> !players[i].clearRing
      ensures space == Crown && |players| > 0 ==>
        && players[|players| - 1].crown
        && forall i :: 0 <= i < |players| && players[i] != players[|players| - 1] ==> !players[i].crown
      // and for every other square, only the player passed in changes:
      ensures space != Crown && space != MysteryRing ==>
        && player.View() == Applied(old(player.View()), space)
        && forall i :: 0 <= i < |players| && players[i] != player ==> players[i].View() == old(players[i].View())
    {
      var current := player;
      if space == Crown || space == MysteryRing {
        current := ResetPlayers(player, space);
      }
      current.ApplyBoardSpace(space);
    }

    /** The loop of `apply_board_space` for the Crown and Mystery Ring
        squares: reset every player of the list, and leave the loop variable,
        which shares its name with the parameter `player`, bound to the last
        one (to `player` itself when the list is empty). */
    method ResetPlayers(player: PlayerState, space: BoardSpaceType) returns (current: PlayerState)
      requires space == Crown || space == MysteryRing
      modifies players
      ensures current == Target(players, player, space)
      ensures forall j :: 0 <= j < |players| ==>
        players[j].View() == Reset(old(players[j].View()), space)
    {
      current := player;
      ghost var done: set<PlayerState> := {};
      var i := 0;
      while i < |players|
        invariant 0 <= i <= |players|
        invariant current == if i == 0 then player else players[i - 1]
        invariant forall j :: 0 <= j < i ==> players[j] in done
        invariant forall j :: 0 <= j < |players| ==>
          players[j].View() ==
            if players[j] in done then Reset(old(players[j].View()), space)
            else old(players[j].View())
      {
        current := players[i];
        if space == Crown {
          current.crown := false;
        } else {
          current.clearRing := false;
        }
        done := done + {current};
        i := i + 1;
      }
    }
  }
}
