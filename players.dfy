// `Players<P>` (game/src/game/mod.rs): the player list of every phase, in
// which a player's id is its index. Looking a player up by id is indexing,
// and borrowing two players at once needs two distinct indices in range.
module PlayerLists {
  import opened Wrappers
  import opened Vocabulary
  import opened Errors

  /** `Players::player`: the player at index `id`, or `InvalidPlayerIndex(id)`. */
  function PlayerAt<P>(players: seq<P>, id: PlayerId): (r: Result<P, GameError>)
    ensures r.Ok? <==> id < |players|
    ensures r.Ok? ==> r.value == players[id]
    ensures r.Err? ==> r.error == InvalidPlayerIndex(id)
  {
    if id < |players| then Ok(players[id]) else Err(InvalidPlayerIndex(id))
  }

  /** `Players::get_disjoint_mut([a, b])` succeeds: both in range and not the same. */
  predicate Disjoint<P>(players: seq<P>, a: nat, b: nat)
  {
    a < |players| && b < |players| && a != b
  }
}
