// `LobbyPlayer` (game/src/player/lobby.rs): a player waiting in the lobby.
// Only its id changes, when the lobby renumbers players after one leaves.
module LobbyPlayers {
  import opened Vocabulary
  import opened PlayerRecords

  /**
   * `PlayerInfo::from(&LobbyPlayer)`: the name and id, and every other field
   * at its default.
   */
  function LobbyInfo(p: LobbyPlayerData): (r: PlayerInfo)
    ensures r.name == p.name && r.id == p.id
    ensures r.(name := DEFAULT_PLAYER_INFO.name, id := DEFAULT_PLAYER_INFO.id) == DEFAULT_PLAYER_INFO
  {
    DEFAULT_PLAYER_INFO.(name := p.name, id := p.id)
  }

  class LobbyPlayer {
    var id: PlayerId
    const name: string
    const isHuman: bool

    /** `LobbyPlayer::new` */
    constructor (id: PlayerId, name: string, isHuman: bool)
      ensures Data() == LobbyPlayerData(id, name, isHuman)
    {
      this.id := id;
      this.name := name;
      this.isHuman := isHuman;
    }

    function Data(): LobbyPlayerData
      reads this
    {
      LobbyPlayerData(id, name, isHuman)
    }

    /** `set_id`: only the id changes. */
    method SetId(id: PlayerId)
      modifies this
      ensures Data() == old(Data()).(id := id)
    {
      this.id := id;
    }

    function Info(): (r: PlayerInfo)
      reads this
      ensures r == LobbyInfo(Data())
    {
      DEFAULT_PLAYER_INFO.(name := name, id := id)
    }
  }
}
