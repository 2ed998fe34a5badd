# The Bottom Line — a verified model of the game rules

*The Bottom Line* is a multiplayer board game about running companies. The `game` crate holds its rules engine.
- Players gather in a lobby.
- They draft characters (CEO, CFO, CSO, HeadRnD, Shareholder, Banker, Regulator, …).
- They play rounds: drawing asset and liability cards, buying assets whose worth follows a shared market, issuing liabilities and using their character's ability.
- The game ends in a results phase, where some assets' abilities adjust the final holdings.

The server's request handler runs one game action on behalf of one player. It then decides which notification each other player receives, and what the acting player is told directly.

This project models, in Dafny:

- **Building blocks.**
  - Market conditions and their raise/lower steps.
  - Asset market value and divest cost; the character tables.
  - The `Deck<T>` draw/put-back discipline with its backup; id-indexed player lists.
  - The character draft `ObtainingCharacters`.
  - Expansion of the card catalogue into decks.
- **The four-phase game state** (Lobby, SelectingCharacters, Round, Results). It includes the banker-target sub-phase of the newer round code, and the accessors and transitions.
- **The per-phase player records** and their guarded, in-place operations. Each is a Dafny `class` whose fields the source updates, and each is specified by a pure function over a value snapshot (`Data()`).
- **The older single-file snapshot** of the crate (`game/src/game.rs`, `game/src/player.rs`). It is modelled only where it differs from the newer split files:
  - the market-dependent turn cash;
  - the end-of-game decision taken at the end of a round;
  - the round without a final-round flag;
  - its scenario tests.
- **The request handler** (`server/src/request_handler.rs`). Its handlers are modelled as builders of per-recipient notification maps over an abstract game. This is where recipient sets and anonymisation are proved.

Each module pairs two layers.
- **Specification functions** on values return `Result<(State, Output), GameError>`, with lemmas about them: invariants kept, round trips, error precedence, if-and-only-if conditions.
- **Imperative methods** on classes each `ensures` that the new state and the answer are exactly what the specification function gives. `Wrappers.Settled` states this: on an error, nothing at all changes.

Where the newer files call each other with signatures that do not match, the model uses the callee's definition. The points where the source disagrees with itself are:
- `game/src/game/selecting_characters.rs:135-152` builds a `Round` with a `banker_target` field and calls `start_turn(&market)`. The `Round` of `game/src/game/round.rs` has `is_final_round` instead, and `RoundPlayer::start_turn` in `game/src/player/round.rs:558-560` takes no market. The model starts the first turn with the no-argument `start_turn` and sets the flag to false.
- `game/src/game/round.rs` builds `PlayerPlayedCard` with an `is_final_round` field that the struct in `game/src/game/mod.rs:393-399` does not declare. The model keeps the declared fields, and exposes the flag as round state.
- `game/src/game/banker_target.rs:96` calls `pay_banker` with three arguments, but `game/src/player/banker_target.rs:168-174` takes five. The model uses the five-argument callee, with the banker and the amount supplied by the round.
- `LobbyPlayer::new` and `SelectingCharactersPlayer::new` are called with fewer arguments than they declare. The model uses the declarations.
- The results built by `game/src/game/round.rs:439-508` omit the `final_market` that `Results` holds. The model stores the round's current market there, as the older snapshot does (`game/src/game.rs:1697-1711`).
- `server/src/request_handler.rs` matches a `GameState::BankerTarget` phase and calls `round.banker_target()`, neither of which the game crate defines. The model's game has the four phases the crate declares, so the branch of `end_turn` that enters the banker's target phase is not modelled (see Left out).
- `game/src/errors.rs` declares none of the error variants the banker-target code returns. The model declares them in `Errors`.
- `From<BankerTargetPlayer> for RoundPlayer` (`game/src/player/banker_target.rs:332-353`) leaves out the `has_gotten_bonus_cash` and `is_human` fields that `RoundPlayer` declares (`game/src/player/round.rs:11-30`). The model sets the bonus cash flag to false, as a fresh turn state, and takes the humanity flag as a parameter.
- A second conversion, `From<&BankerTargetPlayer> for RoundPlayer` (`game/src/player/round.rs:627-649`), sets `has_gotten_bonus_cash` to false but also omits `is_human`. It keeps `was_first_to_six_assets` (line 647), where the by-value conversion resets it (`game/src/player/banker_target.rs:351`). Neither conversion is called in the game crate. The model has both: `RoundFromBankerTarget` resets the flag and `RoundFromBankerTargetRef` keeps it. `BankerTargetRoundTrip` goes through the by-reference one, because it sits beside `From<&RoundPlayer> for BankerTargetPlayer` (`game/src/player/round.rs:612-624`), which the trip starts from. The lemma also states that the by-value one gives the same player with the flag reset.
- `game/src/game/banker_target.rs:99` builds `PayBankerError::NotRightCashAmount` with no fields, while `game/src/player/banker_target.rs:160-163` builds it as a struct variant with fields `expected` and `got`. The model follows the struct variant, `NotRightCashAmount(expected, got)`. In `player_pay_banker` (`PaidBankerInRound`, `BankerTargetRound.PlayerPayBanker`) it supplies the gold owed as `expected` and the offered amount as `got`.
- `PlayerInfo` (`game/src/player/mod.rs:169-184`) declares no `is_human` field, yet `game/src/player/selecting_characters.rs:134` and `game/src/player/round.rs:606` set one. The model's `PlayerInfo` keeps the declared fields only.

## Model

| member | source | states |
|---|---|---|
| Errors.AsU8 | game/src/game/lobby.rs:323 | `n as u8` is n itself below 256, and otherwise agrees with n modulo 256 |
| MarketRules.MakeHigher | game/src/game/mod.rs:68-73 | `make_higher` moves Minus to Zero and Zero or Plus to Plus: one rank up, saturating at Plus |
| MarketRules.MakeLower | game/src/game/mod.rs:77-82 | `make_lower` moves Plus to Zero and Zero or Minus to Minus: one rank down, saturating at Minus |
| MarketRules.RaiseLowerMonotone | game/src/game/mod.rs:68-82 | neither step moves a condition the opposite way; raising is the identity exactly at Plus, lowering exactly at Minus |
| MarketRules.RaiseLowerInverse | game/src/game/mod.rs:68-82 | lowering undoes a raise except from Plus, raising undoes a lowering except from Minus |
| MarketRules.ColorCondition | game/src/game/mod.rs:116-124 | the condition of each colour is the market's field for that colour; the older snapshot does the same at game/src/game.rs:83-91 |
| MarketRules.WithCondition | game/src/player/results.rs:94-100 | replacing one colour's condition changes that colour only and keeps title, rates and the other colours |
| MarketRules.MarketExtensional | game/src/game/mod.rs:90-112 | a market is determined by its title, rates and five colour conditions |
| PlayerRules.MarketValue | game/src/player/mod.rs:52-59 | market value is gold + silver, gold, or gold − silver under a Plus, Zero or Minus condition of the asset's colour; the older snapshot does the same at game/src/player.rs:790-797 |
| PlayerRules.DivestCost | game/src/player/mod.rs:63-72 | divest cost is 0 exactly when the market value is at most 1, otherwise market value − 1; it never exceeds gold + silver; the older snapshot does the same at game/src/player.rs:801-810 |
| PlayerRules.RfrPercentage | game/src/player/mod.rs:111-117 | the rate is 1, 2 or 3 exactly for trade credit, bank loan and bonds; the older snapshot does the same at game/src/player.rs:878-884 |
| PlayerRules.Index | game/src/player/mod.rs:280-319 | every character sits at one position of `CHARACTERS`, which is its rank in the derived order |
| PlayerRules.IndexInjective | game/src/player/mod.rs:310-319 | distinct characters have distinct ranks |
| PlayerRules.ColorOf | game/src/player/mod.rs:322-335 | a character is colourless exactly when it is one of the three lowest (Shareholder, Banker, Regulator); the older snapshot does the same at game/src/player.rs:1153-1166 |
| PlayerRules.ColorOwnersUnique | game/src/player/mod.rs:322-335 | no two characters share a colour |
| PlayerRules.NextIsSuccessor | game/src/player/mod.rs:338-351 | `next` is the character right after `c` in `CHARACTERS`, and None exactly for Stakeholder; the older snapshot does the same at game/src/player.rs:1169-1182 |
| PlayerRules.First | game/src/player/mod.rs:354-356 | `first` is None exactly for an empty list, and otherwise a member of the list with the least rank; the older snapshot does the same at game/src/player.rs:1185-1187 |
| PlayerRules.ColorCost | game/src/player/mod.rs:434-447 | the cost of a colour is that colour's field of the table |
| PlayerRules.PlayableAssetsTable | game/src/player/mod.rs:360-376 | CEO: total 3, each colour 1; CSO: total 2, red and green 1, the others 2; everyone else: total 1, each colour 1; the older snapshot does the same at game/src/player.rs:1191-1207 |
| PlayerRules.ColorCostDividesTotal | game/src/player/mod.rs:434-447 | for every character's table the debug assertions hold: each cost is positive and divides the total |
| PlayerRules.PlayableLiabilities | game/src/player/mod.rs:379-384 | the CFO may issue 3 liabilities, everyone else 1 |
| PlayerRules.DrawsNCards | game/src/player/mod.rs:387-393 | HeadRnD draws 6 cards, everyone else 3; always a multiple of three; the older snapshot does the same at game/src/player.rs:1218-1224 |
| PlayerRules.CanBeFiredIffColored | game/src/player/mod.rs:401-406 | the characters that can be fired are exactly the coloured ones, CEO, CFO, CSO, HeadRnD and Stakeholder |
| PlayerRules.CanBeFired | game/src/player/mod.rs:401-406 | `can_be_fired`: CEO, CSO, CFO, HeadRnD or Stakeholder. `CanBeFiredIffColored` states that these are the coloured characters |
| PlayerRules.CanRedeemLiabilities | game/src/player/mod.rs:396-398 | `can_redeem_liabilities`: only the CFO. `Redeemed` states its use as the `NotAllowedToRedeemLiability` error |
| PlayerRules.HandKinds | game/src/player/mod.rs:187-194 | the public view of a hand has its length, and entry i is an asset exactly when card i is; the older snapshot does the same at game/src/player.rs:966-973 |
| PlayerRules.HandKindsForgetsContents | game/src/player/mod.rs:187-194 | hands whose cards have the same kinds look the same to the others |
| PlayerRules.HandKindsAppend | game/src/player/mod.rs:187-194 | the view of a hand is taken card by card, so it distributes over concatenation |
| PlayerLists.PlayerAt | game/src/game/mod.rs:468-472 | `player(id)` succeeds exactly for an id below the length, giving the player at that index, and otherwise answers `InvalidPlayerIndex(id)`; the older snapshot does the same at game/src/game.rs:426-430 |
| Decks.Drawn | game/src/game/mod.rs:185-200 | a draw takes one card: the rest is one shorter than the pile, or than the backup when the pile is empty; the older snapshot does the same at game/src/game.rs:151-166 |
| Decks.DrawnIsLast | game/src/game/mod.rs:185-200 | the card drawn is the last card of the pile (of the backup once the pile is empty), and the rest followed by that card is that pile again; the older snapshot does the same at game/src/game.rs:151-166 |
| Decks.PutBackOnto | game/src/game/mod.rs:220-222 | a put-back card becomes the first (bottom) card and the others keep their order |
| Decks.DrawMany | game/src/game/lobby.rs:339-341 | n successive draws from a pile of at least n cards take n cards and leave its first length − n cards |
| Decks.PutBackStaysAtBottom | game/src/game/mod.rs:185-222 | a card put back is not drawn by the next draws while others remain: they draw what they would have drawn, and the card stays at the bottom |
| Decks.DrawAllReverses | game/src/game/mod.rs:185-200 | drawing a whole pile yields its cards top first, in reverse order |
| Decks.Deck.constructor | game/src/game/mod.rs:155-162 | `Deck::new` holds the cards and a backup equal to them, with an empty back image; the older snapshot does the same at game/src/game.rs:121-128 |
| Decks.Deck.WithUrl | game/src/game/mod.rs:177-181 | `new_with_url` also stores the back image |
| Decks.Deck.Len | game/src/game/mod.rs:205-207 | the length is the number of cards left in the pile |
| Decks.Deck.Draw | game/src/game/mod.rs:185-200 | drawing in place returns and removes the card `Drawn` gives, refilling from the backup when empty; the older snapshot does the same at game/src/game.rs:151-166 |
| Decks.Deck.PutBack | game/src/game/mod.rs:220-222 | putting back in place inserts the card at index 0; the older snapshot does the same at game/src/game.rs:186-188 |
| Decks.Deck.SetImageBackUrl | game/src/game/mod.rs:215-217 | sets the back image only |
| Draft.OpenCharacterCount | game/src/game/mod.rs:275-281 | 4, 5, 6 or 7 players give 2, 1, 0 or 0 open characters; any other count is `InvalidPlayerCount(n as u8)` |
| Draft.NewDraft | game/src/game/mod.rs:275-322 | `ObtainingCharacters::new` fails exactly for counts outside 4..7, with `InvalidPlayerCount`; the older snapshot does the same at game/src/game.rs:239-283 |
| Draft.NewDraftOpenCharacters | game/src/game/mod.rs:916-930 | unshuffled, there are 2, 1 or 0 open characters for 4, 5 or 6–7 players, never the CEO, only HeadRnD or Stakeholder; 7 − open are available; available, open and closed partition the characters; the older snapshot's test at game/src/game.rs:1935-1950 checks that the CEO is never open |
| Draft.Peek | game/src/game/mod.rs:326-348 | the first pick sees exactly the available characters and the closed one revealed; middle picks see the available ones; the last pick sees them plus the closed one; afterwards `NotPickingCharacters`; the older snapshot does the same at game/src/game.rs:287-309 |
| Draft.Pick | game/src/game/mod.rs:351-367 | the pick on a draft value: the offered character leaves the offer and the draw index moves on; a character not offered is `UnavailableCharacter`, a finished draft `NotPickingCharacters`. Its contract is stated by `PickRemovesOne` and `PickInv` |
| Draft.PickRemovesOne | game/src/game/mod.rs:351-367 | a pick succeeds exactly for an offered character, removes one occurrence of it from the offer and advances the draw index; otherwise the peek error or `UnavailableCharacter`; the older snapshot does the same at game/src/game.rs:312-327 |
| Draft.AppliesToPlayer | game/src/game/mod.rs:370-372 | the picker is (draw index + chairman) mod players, a valid seat, the chairman first; the older snapshot does the same at game/src/game.rs:330-332 |
| Draft.NewDraftInv | game/src/game/mod.rs:275-322 | a new draft satisfies the draft invariant (distinct characters, none lost) |
| Draft.PickInv | game/src/game/mod.rs:351-367 | a pick keeps the draft invariant |
| Draft.OfferSize | game/src/game/mod.rs:1109-1126 | the chairman sees n + 1 characters for 4–6 players and 7 for 7; each pick shrinks the offer by one, and the last picker's list holds the closed character |
| Draft.ObtainingCharacters.PeekOffer | game/src/game/mod.rs:326-348 | the in-place draft offers what `Peek` gives |
| Draft.ObtainingCharacters.PickCharacter | game/src/game/mod.rs:351-367 | an in-place pick changes the draft exactly as `Pick`, and a failed pick changes nothing; the older snapshot does the same at game/src/game.rs:312-327 |
| Draft.ObtainingCharacters.AppliesTo | game/src/game/mod.rs:370-372 | the in-place draft names the picker `AppliesToPlayer` gives |
| Draft.ObtainingCharacters.New | game/src/game/mod.rs:275-322 | the in-place constructor fails with the `InvalidPlayerCount` error `NewDraft` gives; otherwise it builds a fresh, well-formed draft equal to `NewDraft`, drawing the open characters and then the closed one from a fresh deck of all characters; the older snapshot does the same at game/src/game.rs:239-283 |
| LobbyPlayers.LobbyInfo | game/src/player/lobby.rs:41-47 | the info of a lobby player copies name and id and leaves every other field at its default; the older snapshot does the same at game/src/player.rs:991-997 |
| LobbyPlayers.LobbyPlayer.constructor | game/src/player/lobby.rs:15-17 | a new lobby player stores exactly the given id, name and humanity |
| LobbyPlayers.LobbyPlayer.SetId | game/src/player/lobby.rs:25-27 | `set_id` changes the id and nothing else; the older snapshot does the same at game/src/player.rs:37-39 |
| LobbyPlayers.LobbyPlayer.Info | game/src/player/lobby.rs:41-47 | the info of a lobby player object is `LobbyInfo` of its record |
| SelectingPlayers.NewSelectingPlayer | game/src/player/selecting_characters.rs:67-91 | a new picker's hand is the two dealt assets followed by the two dealt liabilities, card for card (kinds A, A, L, L); it owns no assets or liabilities, holds no character, and keeps the given id, name, cash and humanity; the older snapshot does the same at game/src/player.rs:98-120 |
| SelectingPlayers.NewPlayerCanSelect | game/src/player/selecting_characters.rs:67-106 | a new picker shows the others two asset cards and two liability cards, no holdings, its cash and no character, and its first pick succeeds and sets that character |
| SelectingPlayers.Selected | game/src/player/selecting_characters.rs:95-106 | a pick succeeds exactly when no character is held and sets it; otherwise `AlreadySelectedCharacter(existing)`; the older snapshot does the same at game/src/player.rs:124-135 |
| SelectingPlayers.SelectOnlyOnce | game/src/player.rs:1350-1372 | after one successful pick every later pick fails naming the first character |
| SelectingPlayers.SelectingFromRound | game/src/player/selecting_characters.rs:110-121 | going back to the draft clears the character and keeps id, name, cash, holdings, hand and humanity; the older snapshot does the same at game/src/player.rs:139-149 |
| SelectingPlayers.SelectingInfo | game/src/player/selecting_characters.rs:125-136 | a picker's info shows the kinds of its hand and copies name, id, cash, holdings and character |
| SelectingPlayers.SelectingCharactersPlayer.SetIsHuman | game/src/player/selecting_characters.rs:62-64 | `set_is_human` changes that flag only |
| SelectingPlayers.SelectingCharactersPlayer.SelectCharacter | game/src/player/selecting_characters.rs:95-106 | an in-place pick changes the record exactly as `Selected`, and a refused one changes nothing |
| SelectingPlayers.SelectingCharactersPlayer.Info | game/src/player/selecting_characters.rs:125-136 | the info of the object is `SelectingInfo` of its record |
| Lobbies.Usernames | game/src/game/lobby.rs:152-154 | the user names, one per player, in list order; the older snapshot does the same at game/src/game.rs:869-871 |
| Lobbies.LobbyOthersInfo | game/src/game/lobby.rs:239-245 | the info list of the other players has at most as many entries as the lobby |
| Lobbies.LobbyOthersInfoSkipsSelf | game/src/game/lobby.rs:239-245 | `player_info(id)` lists the info of every other player, in order, one fewer than the lobby; the older snapshot does the same at game/src/game.rs:955-961 |
| Lobbies.Joined | game/src/game/lobby.rs:172-184 | joining fails with `UsernameAlreadyTaken(name)` exactly when the name is taken; otherwise it appends one player whose id is the old length and keeps the others; the older snapshot does the same at game/src/game.rs:889-901 |
| Lobbies.Renumbered | game/src/game/lobby.rs:212-216 | renumbering gives every player its position as id and changes nothing else |
| Lobbies.LeftLobby | game/src/game/lobby.rs:207-220 | `leave` on a lobby value. `LeaveRemovesThatPlayer` and `LeaveKeepsLobbyInv` state what it removes and renumbers |
| Lobbies.JoinKeepsLobbyInv | game/src/game/lobby.rs:172-184 | a join keeps ids equal to positions and names distinct; the same invariant for the older lobby at game/src/game.rs:889-901 |
| Lobbies.LeaveRemovesThatPlayer | game/src/game/lobby.rs:207-220 | leave answers true exactly when the name is present; then it removes exactly that player, the others keep their order and are renumbered; otherwise nothing changes; the older snapshot does the same at game/src/game.rs:924-936 |
| Lobbies.LeaveKeepsLobbyInv | game/src/game/lobby.rs:207-220 | a leave keeps ids equal to positions and names distinct, and the name is gone afterwards; the same invariant for the older lobby at game/src/game.rs:924-936 |
| Lobbies.DealtOne | game/src/game/lobby.rs:339-340 | each player's deal takes two assets and two liabilities |
| Lobbies.DealtOneTakesTop | game/src/game/lobby.rs:339-340 | the two assets and two liabilities dealt are the top two of each deck, top first |
| Lobbies.DecksAfter | game/src/game/lobby.rs:336-341 | dealing to any number of players never changes the backups or the card backs of the two decks |
| Lobbies.CardsDealt | game/src/game/lobby.rs:339-340 | the deal of the i-th player is two assets and two liabilities, drawn from the decks the earlier deals left |
| Lobbies.DealtPlayer | game/src/game/lobby.rs:341-347 | a dealt picker has the lobby player's id, name and humanity, cash `STARTING_GOLD`, no character, no assets or liabilities yet, and a hand of two assets then two liabilities |
| Lobbies.DecksAfterTakesTop | game/src/game/lobby.rs:336-348 | with at least 2n cards in each deck, n deals leave each deck as it was without its top 2n cards |
| Lobbies.DealtOneMore | game/src/game/lobby.rs:336-348 | dealing to one more lobby player appends exactly that player's picker, built from the cards the next deal draws |
| Lobbies.Dealt | game/src/game/lobby.rs:329-353 | `init_players` makes one picker per lobby player and leaves the backups alone; the older snapshot does the same at game/src/game.rs:1030-1054 |
| Lobbies.DealtKeepsEarlier | game/src/game/lobby.rs:336-348 | the first k pickers of a deal are those a deal to the first k lobby players makes: dealing to later players does not change earlier ones |
| Lobbies.DealtPlayers | game/src/game/lobby.rs:336-348 | picker i has the id, name and humanity of lobby player i, cash `STARTING_GOLD` = 1, and a hand of two assets followed by two liabilities; the older snapshot does the same at game/src/game.rs:1030-1054 |
| Lobbies.DealtTakesTop | game/src/game/lobby.rs:329-353 | dealing to n players removes exactly the top 2n cards of each deck |
| Lobbies.DealtHandAt | game/src/game/lobby.rs:329-353 | picker i's hand is cards 2i and 2i + 1 from the top of the asset deck, then the same of the liability deck |
| Lobbies.SwapRemove | game/src/game/lobby.rs:359 | `swap_remove(i)` shortens the list by one, fills position i with the last element and keeps the multiset less `s[i]` |
| Lobbies.InitialMarket | game/src/game/lobby.rs:356-362 | no market is found exactly when every card of the deck is an event, and then the deck is unchanged; the backup is never touched; the older snapshot does the same at game/src/game.rs:1057-1062 |
| Lobbies.InitialMarketIsFirst | game/src/game/lobby.rs:356-362 | the market found is the first market card of the deck, and the deck loses exactly that card |
| Lobbies.StartedGame | game/src/game/lobby.rs:321-324 | starting with fewer than 4 or more than 7 players answers `InvalidPlayerCount(len as u8)` |
| Lobbies.StartedGameUnfold | game/src/game/lobby.rs:271-325 | a start deals to the players, takes the initial market (or the default one) and opens a draft chaired by the first player |
| Lobbies.LobbyInIdOrder | game/src/game/lobby.rs:333 | a well-formed lobby is already sorted by id, so the sort is the identity |
| Lobbies.StartedGameInv | game/src/game/lobby.rs:271-325 | a successful start yields a well-formed draft phase |
| Lobbies.StartGameOutcome | game/src/game/lobby.rs:264-325 | a start succeeds exactly with 4 to 7 players; the draft then has chairman 0, draw index 0, no events, the lobby's names in order, each player with cash 1 and four cards, and the initial market or the default; the older snapshot does the same at game/src/game.rs:980-1026 |
| Lobbies.Lobby.constructor | game/src/game/lobby.rs:31-33 | a new lobby is empty and well formed |
| Lobbies.Lobby.Join | game/src/game/lobby.rs:172-184 | an in-place join does what `Joined` says and keeps the lobby well formed; the older snapshot does the same at game/src/game.rs:889-901 |
| Lobbies.Lobby.Leave | game/src/game/lobby.rs:207-220 | an in-place leave does what `LeftLobby` says and keeps the lobby well formed; the older snapshot does the same at game/src/game.rs:924-936 |
| Lobbies.Lobby.StartGame | game/src/game/lobby.rs:271-325 | an in-place start returns the error `StartedGame` gives, or a fresh, well-formed draft phase equal to what it gives |
| SelectingPhase.PickerIsSeat | game/src/game/selecting_characters.rs:51-53 | the current picker is the seat `draw_idx` places after the chairman, modulo the player count |
| SelectingPhase.EnteredSelectingInv | game/src/game/round.rs:458-488 | a draft opened from a finished round, with fresh draft, no characters and the round's decks, is well formed |
| SelectingPhase.CurrentlySelectingId | game/src/game/selecting_characters.rs:51-53 | the id of the current picker is (draw index + chairman) mod players; the older snapshot does the same at game/src/game.rs:1109-1111 |
| SelectingPhase.SelectingAsCurrent | game/src/game/selecting_characters.rs:58-65 | the gate lets through exactly the current picker; an unknown id gives `InvalidPlayerIndex`, another player `NotPlayersTurn`; the older snapshot does the same at game/src/game.rs:1116-1123 |
| SelectingPhase.SelectableCharacters | game/src/game/selecting_characters.rs:69-79 | the current picker gets the offer of `peek`; any other errors come from the gate first, then `NotPickingCharacters`; the older snapshot does the same at game/src/game.rs:1127-1137 |
| SelectingPhase.ClosedCharacter | game/src/game/selecting_characters.rs:82-89 | the closed character is shown only to the current picker at the first pick; later picks get `NotChairman`, a finished draft `NotPickingCharacters`; the older snapshot does the same at game/src/game.rs:1140-1147 |
| SelectingPhase.OnlyChairmanSeesClosed | game/src/game/selecting_characters.rs:82-89 | whoever sees the closed character is the chairman, who is offered n + 1 characters (7 with 7 players) |
| SelectingPhase.SelectingByName | game/src/game/selecting_characters.rs:32-37 | a lookup by name finds a player with that name, or answers `InvalidPlayerName(name)` exactly when there is none; the older snapshot does the same at game/src/game.rs:1090-1095 |
| SelectingPhase.SelectingOthersInfo | game/src/game/selecting_characters.rs:184-190 | the info of the other players has at most as many entries as the phase has players |
| SelectingPhase.SelectingOthersInfoSkipsSelf | game/src/game/selecting_characters.rs:184-190 | `player_info(id)` lists every other player's info, in order; the older snapshot does the same at game/src/game.rs:1239-1245 |
| SelectingPhase.TurnOrder | game/src/game/selecting_characters.rs:172-176 | the turn order has one entry per player, entry k being the seat k places after the chairman |
| SelectingPhase.TurnOrderIsPickOrder | game/src/game/selecting_characters.rs:172-176 | the turn order starts with the chairman, contains every id exactly once, and its entry at the draw index is the current picker; the older snapshot does the same at game/src/game.rs:1227-1231 |
| SelectingPhase.ToRoundPlayers | game/src/game/selecting_characters.rs:127-131 | converting the pickers succeeds exactly when each holds a character, player by player, else `PlayerMissingCharacter` |
| SelectingPhase.SmallestCharacterAt | game/src/game/selecting_characters.rs:109-114 | the first player of the round is the first one holding the smallest character |
| SelectingPhase.RoundFromDraftEffects | game/src/game/selecting_characters.rs:108-152 | after the last pick the round exists and is well formed; the first player has the smallest character and is the only one given `start_turn` (+1 cash); every player keeps its character, all distinct; no fired characters, the draft's open characters, no final round; decks, chairman, market and events carried over |
| SelectingPhase.DraftedPlayers | game/src/game/selecting_characters.rs:127-131 | once everyone has picked, every picker converts into a round player, in order, keeping its id and its character; the characters are pairwise different and every converted player is well formed |
| SelectingPhase.RoundFromDraftShape | game/src/game/selecting_characters.rs:108-147 | the round of a completed draft is, field by field, the converted players with the holder of the smallest character as current player and alone started, the phase's decks, chairman, market and events, the draft's open characters, no fired characters and no final round |
| SelectingPhase.StartedPlayers | game/src/game/selecting_characters.rs:149-152 | starting one player's turn raises that player's cash by one and changes nothing else of any player: ids, characters, the player invariant, the smallest character and distinct characters are kept |
| SelectingPhase.RoundFromDrafted | game/src/game/selecting_characters.rs:108-152 | that round is well formed, the current player holds the smallest character and every player keeps its drafted character, all distinct |
| SelectingPhase.RoundFromDraftedPlayers | game/src/game/selecting_characters.rs:127-152 | in that round every player but the current one is exactly its converted picker, and the current one is its converted picker with one more cash |
| SelectingPhase.RoundFromDraftOk | game/src/game/selecting_characters.rs:108-152 | once everyone has picked the round can always be built: no conversion fails and the first player exists |
| SelectingPhase.OfferIsFree | game/src/game/selecting_characters.rs:99-106 | the offer holds distinct characters, none held by a player |
| SelectingPhase.PickKeepsSelectingInv | game/src/game/selecting_characters.rs:99-106 | a successful pick finds the picker without a character and keeps the phase well formed |
| SelectingPhase.SelectionOutcomes | game/src/game/selecting_characters.rs:94-162 | an unknown or non-current id and an unavailable character are refused before anything changes; otherwise the picker gets the character, the draft advances, and a round is returned exactly on the last pick |
| SelectingPhase.PickedOutcomes | game/src/game/selecting_characters.rs:101-105 | the pick itself fails with the lookup's error for an unknown or non-current id, then with the draft's error for a character not offered, and otherwise records the character on the picker, advances the draft and keeps the phase well formed |
| SelectingPhase.SelectionSucceeds | game/src/game/selecting_characters.rs:101-159 | a pick by the current picker of an offered character succeeds, keeps the phase well formed, and returns a round exactly on the last pick, the round built from the new state |
| SelectingPhase.PickedInPhase | game/src/game/selecting_characters.rs:99-106 | the pick itself, on a phase value: a successful pick leaves the players in place and a draft for the same number of players. `PickedOutcomes` states its errors and its new state |
| SelectingPhase.SelectedInPhase | game/src/game/selecting_characters.rs:94-162 | `player_select_character` on a phase value: the pick, then a round exactly when `peek` fails afterwards. `SelectionOutcomes` and `SelectionSucceeds` state its errors and results |
| SelectingPhase.RoundFromDraft | game/src/game/selecting_characters.rs:108-152 | the round the last pick builds. `RoundFromDraftShape`, `RoundFromDraftEffects` and `RoundFromDraftOk` state its fields and that it always exists once everyone has picked |
| SelectingPhase.SelectingCharacters.PlayerSelectCharacter | game/src/game/selecting_characters.rs:94-162 | an in-place pick does what `SelectedInPhase` says; on the last pick the fresh round takes over the phase's decks |
| SelectingPhase.SelectingCharacters.TakeCharacter | game/src/game/selecting_characters.rs:99-105 | an in-place pick, before the draft is looked at again, does what `PickedInPhase` says and leaves the state unchanged on error |
| SelectingPhase.SelectingCharacters.StartRound | game/src/game/selecting_characters.rs:108-152 | builds the round `RoundFromDraft` describes, well formed, sharing the decks |
| RoundPlayers.RoundFromSelecting | game/src/player/round.rs:566-593 | a picker becomes a round player exactly when it holds a character, else `PlayerMissingCharacter`; it keeps its id, name, cash, cards and humanity, takes its character's play allowances and starts with no draws, give-backs or used abilities; the older snapshot does the same at game/src/player.rs:593-617 |
| RoundPlayers.SelectingRoundTrip | game/src/player/selecting_characters.rs:110-121 | turning the round player back into a picker gives the original picker with its character cleared |
| RoundPlayers.RoundInfo | game/src/player/round.rs:597-608 | the public info shows the hand as card kinds only, plus the character, name, id, cash, assets and liabilities; the older snapshot does the same at game/src/player.rs:1015-1025 |
| RoundPlayers.BankerTargetFromRound | game/src/player/round.rs:612-624 | a banker-target player keeps the round player's id, name, cash, character, cards, liability allowance and six-asset flag |
| RoundPlayers.UpdateCardsDrawn | game/src/player/round.rs:109-116 | after a hand card leaves, the drawn-card list no longer contains that position and keeps every other one |
| RoundPlayers.Played | game/src/player/round.rs:346-394 | playing succeeds exactly when the index is in the hand and the card may be played. In order, the errors are `InvalidCardIndex`, `ExceedsMaximumAssets`, `CannotAffordAsset(cash, cost)` and `ExceedsMaximumLiabilities`. An asset moves from hand to assets, costing its gold and its colour's allowance; a liability moves to liabilities, paying its value and using one allowance; nothing else changes; the older snapshot does the same at game/src/player.rs:412-447 |
| RoundPlayers.CanAffordAsset | game/src/player/round.rs:118-120 | `can_afford_asset`: the cash covers the asset's gold value. `Played` states its use as the `CannotAffordAsset` error |
| RoundPlayers.CanPlayAsset | game/src/player/round.rs:123-127 | `can_play_asset`: the `checked_sub` of the colour's cost from the allowance succeeds, that is the allowance is at least the cost. `Played` states its use as the `ExceedsMaximumAssets` error |
| RoundPlayers.CanPlayLiability | game/src/player/round.rs:130-132 | `can_play_liability`: an allowance is left. `Played` states its use as the `ExceedsMaximumLiabilities` error |
| RoundPlayers.PlayedMovesCard | game/src/player/round.rs:346-394 | a play only moves the card: the hand loses exactly that card, the total card count is kept, the card ends last among assets or liabilities, and cash moves by its value |
| RoundPlayers.WithCardDrawn | game/src/player/round.rs:397-403 | a drawn card is appended to the hand, its position recorded as drawn and the draw count raised by one; nothing else changes |
| RoundPlayers.Drew | game/src/player/round.rs:407-434 | a draw succeeds exactly while the draw limit is not reached, else `MaximumCardsDrawn(total)`; the older snapshot does the same at game/src/player.rs:458-483 |
| RoundPlayers.CanDrawCards | game/src/player/round.rs:471-473 | `can_draw_cards`: fewer draws than the character allows plus the bonus draws. `Drew` and `DrawLimit` state the draws it lets through |
| RoundPlayers.DrawLimit | game/src/player/round.rs:471-478 | with no bonus draws, a sequence of draws succeeds exactly when the total stays within the character's `draws_n_cards`, and it appends the cards in order |
| RoundPlayers.SatSub | game/src/player/round.rs:462-465 | the saturating subtraction of the give-back rule: a - b, or 0 when b is larger |
| RoundPlayers.ShouldGiveBackCards | game/src/player/round.rs:459-468 | a give-back is owed exactly when (draws - bonus draws, saturating) / 3 exceeds the give-backs done; the older snapshot does the same at game/src/player.rs:506-515 |
| RoundPlayers.GivesBackNCards | game/src/player/round.rs:481-484 | the head of R&D gives back two cards, everyone else one |
| RoundPlayers.OwedAfterFullDraw | game/src/player/round.rs:459-484 | after drawing its full allowance without bonus draws, a player owes a give-back exactly while it has given back fewer than `gives_back_n_cards` |
| RoundPlayers.GivenBack | game/src/player/round.rs:438-456 | giving back succeeds exactly when one is owed and the index is in the hand, else `Unnecessary` or `GiveBackInvalidCardIndex`; the card leaves the hand, the count rises by one and nothing else changes; the older snapshot does the same at game/src/player.rs:487-503 |
| RoundPlayers.GiveBackSettles | game/src/player/round.rs:438-468 | the give-back that pays the last debt leaves nothing owed, and a further one is `Unnecessary` |
| RoundPlayers.Redeemed | game/src/player/round.rs:146-176 | a redemption succeeds exactly for a redeeming character with a liability allowance left, a valid index and enough cash. In order, the errors are `NotAllowedToRedeemLiability`, `RedeemExceedsMaximumLiabilities`, `InvalidLiabilityIndex` and `NotEnoughCash`. On success the liability is removed, its value paid and one allowance used; the older snapshot does the same at game/src/player.rs:238-268 |
| RoundPlayers.Fired | game/src/player/round.rs:179-197 | only a shareholder who has not used its ability may fire a character that can be fired; each error case is named; success marks the ability as used; the older snapshot does the same at game/src/player.rs:271-289 |
| RoundPlayers.Terminated | game/src/player/round.rs:200-219 | only a banker who has not used its ability may terminate a character's credit line, one that can be fired; each error case is named; success marks the ability as used |
| RoundPlayers.AbilityOncePerTurn | game/src/player/round.rs:179-219 | after a successful fire or termination, a second one in the same turn is refused as already used |
| RoundPlayers.SwappedWithDeck | game/src/player/round.rs:225-273 | `swap_with_deck` as written, under the requirement `SwapDoesNotPanic` that no index equal to the hand length reach `Vec::remove`. An empty selection changes nothing. Otherwise only an unused regulator may swap, else `AlreadySwapedThisTurn`, and the indices must pass the bound test as written, else `InvalidCardIdxs`; where no panic arises that test accepts exactly valid, distinct indices. Exactly the chosen positions leave the hand, the rest keeping their order; the taken cards are split into assets and liabilities, each in hand order, and give as many bonus draws; the ability is used; the older snapshot has the same check and the same panic at game/src/player.rs:295-340 |
| RoundPlayers.TakenAndKeptFrom | game/src/player/round.rs:246-259 | from any position on, the cards the removal loop keeps in the hand and the cards it sends to the two decks are together exactly the cards that were there |
| RoundPlayers.SwapKeepsCards | game/src/player/round.rs:225-273 | a successful swap with the deck loses no card and makes none up: the kept hand plus the assets and liabilities put back are a permutation of the hand before |
| RoundPlayers.SwapChecksAgree | game/src/player/round.rs:237-239 | wherever the call does not panic, the bound check as written accepts exactly the valid indices |
| RoundPlayers.RegulatorSwapped | game/src/player/round.rs:277-292 | only an unused regulator may swap hands with another player, else `AlreadySwapedThisTurn`; the two hands are exchanged and the ability is used; the older snapshot does the same at game/src/player.rs:344-359 |
| RoundPlayers.RegulatorSwapOnce | game/src/player/round.rs:225-292 | after a hand swap, neither a second hand swap nor a deck swap is allowed in that turn |
| RoundPlayers.RemovedAsset | game/src/player/round.rs:296-303 | removing an asset succeeds exactly for a valid index, else `InvalidCardIdx`, and hands back that asset; the older snapshot does the same at game/src/player.rs:363-369 |
| RoundPlayers.Divested | game/src/player/round.rs:307-342 | a stakeholder may divest once per turn from a target that can be forced to, a valid non-red, non-green asset, if it can pay the divest cost; each error case is named; success deducts the cost; the older snapshot does the same at game/src/player.rs:373-408 |
| RoundPlayers.CountOfColor | game/src/player/round.rs:506-511 | the number of assets of a colour, at most the asset count, and zero exactly when none has that colour |
| RoundPlayers.AssetBonus | game/src/player/round.rs:504-513 | a coloured character earns one per asset of its colour; an uncoloured one earns none; the older snapshot does the same at game/src/player.rs:551-560 |
| RoundPlayers.MarketConditionBonus | game/src/player/round.rs:517-526 | a coloured character earns +1, 0 or -1 as the market's condition for its colour is up, flat or down; an uncoloured one earns 0; the older snapshot does the same at game/src/player.rs:564-573 |
| RoundPlayers.TurnStartCash | game/src/player/round.rs:498-500 | every turn starts with one unit of cash |
| RoundPlayers.TurnCash | game/src/player/round.rs:529-531 | the newer turn cash is the start cash alone, one |
| RoundPlayers.TurnStarted | game/src/player/round.rs:558-560 | starting a turn adds the turn cash and changes nothing else |
| RoundPlayers.GotBonusCash | game/src/player/round.rs:534-555 | bonus cash is paid once per turn to a coloured character; errors `AlreadyGottenBonusCashThisTurn` and `BonusInvalidCharacter`. The amount is asset bonus + market bonus, floored at zero, and is added to cash |
| RoundPlayers.BonusCashAmount | game/src/player/round.rs:504-555 | the bonus is n + 1, n or n - 1 (never below zero) for n assets of the colour under a rising, flat or falling market, and a second claim is refused |
| RoundPlayers.CardOperationsKeepPlayerInv | game/src/player/round.rs:146-456 | playing, drawing, giving back and redeeming keep a round player well formed (cash and allowances non-negative, drawn positions inside the hand) |
| RoundPlayers.AbilitiesKeepPlayerInv | game/src/player/round.rs:179-342 | firing, terminating, both regulator swaps (the deck swap where it does not panic) and divesting keep a round player well formed |
| RoundPlayers.CashOperationsKeepPlayerInv | game/src/player/round.rs:296-560 | removing an asset, bonus cash and the start of a turn keep a round player well formed |
| RoundPlayers.RoundPlayer.EnableFirstToSixAssetsBonus | game/src/player/round.rs:74-76 | sets the six-asset flag and nothing else |
| RoundPlayers.RoundPlayer.SetIsHuman | game/src/player/round.rs:84-86 | sets the humanity flag and nothing else |
| RoundPlayers.RoundPlayer.PlayCard | game/src/player/round.rs:346-394 | an in-place play does what `Played` says, and leaves the player unchanged on error |
| RoundPlayers.RoundPlayer.PlayOn | game/src/player/round.rs:346-394 | the play over a player's value does what `Played` says and changes only the hand, cash, assets, liabilities, the two allowances and the drawn-card positions |
| RoundPlayers.RoundPlayer.DrawCard | game/src/player/round.rs:397-403 | an in-place draw does what `WithCardDrawn` says |
| RoundPlayers.RoundPlayer.DrawAsset | game/src/player/round.rs:407-417 | under the draw limit, takes the deck's top card into the hand; at the limit, `MaximumCardsDrawn` and nothing changes |
| RoundPlayers.RoundPlayer.DrawLiability | game/src/player/round.rs:421-434 | the same for the liability deck |
| RoundPlayers.RoundPlayer.GiveBackCard | game/src/player/round.rs:438-456 | an in-place give-back does what `GivenBack` says |
| RoundPlayers.RoundPlayer.RedeemLiability | game/src/player/round.rs:146-176 | an in-place redemption does what `Redeemed` says |
| RoundPlayers.RoundPlayer.FireCharacter | game/src/player/round.rs:179-197 | an in-place fire does what `Fired` says |
| RoundPlayers.RoundPlayer.TerminateCredit | game/src/player/round.rs:200-219 | an in-place termination does what `Terminated` says |
| RoundPlayers.RoundPlayer.SwapWithDeck | game/src/player/round.rs:225-273 | an in-place swap that does not panic does what `SwappedWithDeck` says; the taken assets and liabilities are put back at the bottom of their decks, and the answer is their counts |
| RoundPlayers.RoundPlayer.RegulatorSwapWithPlayer | game/src/player/round.rs:277-292 | an in-place hand swap between two distinct players does what `RegulatorSwapped` says |
| RoundPlayers.RoundPlayer.RemoveAsset | game/src/player/round.rs:296-303 | an in-place removal does what `RemovedAsset` says |
| RoundPlayers.RoundPlayer.DivestAsset | game/src/player/round.rs:307-342 | an in-place divest does what `Divested` says for the buyer |
| RoundPlayers.RoundPlayer.GetBonusCashCharacter | game/src/player/round.rs:534-555 | an in-place claim does what `GotBonusCash` says |
| RoundPlayers.RoundPlayer.StartTurn | game/src/player/round.rs:558-560 | an in-place turn start does what `TurnStarted` says |
| RoundPlayers.SwapBoundOffByOne | game/src/player/round.rs:237-239 | the bound check as written accepts the index equal to the hand length, which is not a valid position (see Findings) |
| RoundRules.AsCurrent | game/src/game/round.rs:126-132 | the gate lets exactly the current player through: `InvalidPlayerIndex` for an unknown id, `NotPlayersTurn` for another player; the older snapshot does the same at game/src/game.rs:1358-1364 |
| RoundRules.PlayerFromCharacter | game/src/game/round.rs:43-45 | finds the first player holding a character, or nothing exactly when nobody holds it |
| RoundRules.PlayerByName | game/src/game/round.rs:48-53 | finds a player with that name, or `InvalidPlayerName(name)` exactly when there is none |
| RoundRules.NextPlayerFrom | game/src/game/round.rs:68-76 | the next player is the upcoming one (a character later than the current one, not fired) holding the smallest character, the first of them on a tie; none exactly when no one is upcoming; the older snapshot does the same at game/src/game.rs:1305-1313 |
| RoundRules.NextPlayer | game/src/game/round.rs:68-76 | `next_player` of a round: `NextPlayerFrom` over its players, from the current character and the fired ones. `NextPlayerFrom` and `FiredIsSkipped` state which player it is |
| RoundRules.SkippedBelow | game/src/game/round.rs:419-433 | the skipped characters are the stretch of the character list ending just below the current one |
| RoundRules.SkippedBelowStops | game/src/game/round.rs:424-429 | every skipped character is unheld or fired, and the stretch stops at the first character below it that is held and not fired |
| RoundRules.SkippedCharacters | game/src/game/round.rs:419-433 | the skipped characters come in ascending order, all before the current player's character, all unheld or fired |
| RoundRules.SkippedAreContiguous | game/src/game/round.rs:419-433 | they form the contiguous run just below the current character, stopping at an available one; the older snapshot does the same at game/src/game.rs:1631-1645 |
| RoundRules.OthersInfo | game/src/game/round.rs:105-111 | the info of the other players has at most one entry per player |
| RoundRules.OthersInfoSkipsSelf | game/src/game/round.rs:105-111 | with ids equal to positions, it is the info of every player but the asker, in seat order; the older snapshot does the same at game/src/game.rs:1342-1348 |
| RoundRules.FireableCharacters | game/src/game/round.rs:137-147 | the fireable list holds exactly the characters that can be fired and are neither fired nor open, in character order; the older snapshot does the same at game/src/game.rs:1369-1379 |
| RoundRules.FireableFrom | game/src/game/round.rs:137-147 | the suffix from a position holds only fireable characters from there on, in order |
| RoundRules.FireableFromComplete | game/src/game/round.rs:137-147 | it misses no fireable character from there on |
| RoundRules.FireableFromHas | game/src/game/round.rs:137-147 | a fireable character is listed from every earlier position of the call order |
| RoundRules.AssetCount | game/src/game/round.rs:157 | counts the assets in a hand |
| RoundRules.LiabilityCount | game/src/game/round.rs:158 | counts the liabilities in a hand |
| RoundRules.CountsCoverHand | game/src/game/round.rs:155-159 | assets and liabilities together make up the whole hand |
| RoundRules.SwapOption | game/src/game/round.rs:155-159 | each option names the player, and its two counts add up to that player's hand size |
| RoundRules.RegulatorSwapPlayers | game/src/game/round.rs:151-161 | the regulator is offered at most one option per player |
| RoundRules.RegulatorSwapPlayersListsOthers | game/src/game/round.rs:151-161 | the options are exactly those of the players not holding the Regulator; the older snapshot does the same at game/src/game.rs:1383-1393 |
| RoundRules.DivestOptions | game/src/game/round.rs:401-409 | every asset of a target comes with its current divest cost, and may be divested exactly when it is neither red nor green |
| RoundRules.DivestAssets | game/src/game/round.rs:390-414 | only the current player, holding the Stakeholder, gets a list; the gate's errors come first, then `InvalidPlayerCharacter` |
| RoundRules.DivestAssetsListsOthers | game/src/game/round.rs:390-414 | each listed target is another player, not the CSO, shown with all its assets; the older snapshot does the same at game/src/game.rs:1602-1626 |
| RoundRules.MaxBoughtAssets | game/src/game/round.rs:517-523 | the largest asset count, bounding every player's, and 0 without players |
| RoundRules.MaxBoughtAssetsAttained | game/src/game/round.rs:517-523 | some player owns exactly that many assets |
| RoundRules.FinalRoundIffSixAssets | game/src/game/round.rs:512-514 | it is the final round exactly when some player owns six assets or more |
| RoundRules.MaxBoughtAssetsSameCounts | game/src/game/round.rs:517-523 | the maximum only depends on the asset counts |
| RoundRules.FinalRoundReached | game/src/game/round.rs:512-514 | `check_is_final_round`: the largest asset count is at least six. `FinalRoundIffSixAssets` states that this is some player owning six assets |
| RoundRules.ShouldRefreshMarket | game/src/game/round.rs:527-532 | `should_refresh_market`: the largest asset count rose and is not six. `AfterPurchaseEffects` and `PlayCardEffects` state when a purchase refreshes the market |
| RoundRules.DrawnEventLeavesMarket | game/src/game/round.rs:535-550 | drawing an event from a supply that still holds a market leaves a market in it, and the supply shrinks by one |
| RoundRules.RefreshedStep | game/src/game/round.rs:535-550 | one turn of the refresh loop: a drawn market ends it, a drawn event is recorded, and the loop continues on a strictly smaller supply |
| RoundRules.Stacked | game/src/game/round.rs:535-550 | the events, as cards stacked on the pile, in drawing order from the top |
| RoundRules.RefreshedTakesTop | game/src/game/round.rs:535-550 | the refresh takes the events above the topmost market, in order, then that market; the rest of the pile stays; the older snapshot does the same at game/src/game.rs:1735-1750 |
| RoundRules.Refreshed | game/src/game/round.rs:535-550 | `refresh_market` on the market deck's values, well founded because a market remains. `RefreshedStep` and `RefreshedTakesTop` state which cards it takes |
| RoundRules.AfterPurchase | game/src/game/round.rs:176-190 | the bookkeeping after an asset purchase keeps the chairman and the number of players |
| RoundRules.AfterPurchaseEffects | game/src/game/round.rs:176-190 | after a purchase only the buyer's six-asset flag may change among the players; the round is final exactly when someone owns six assets, the purchase that makes it final marks the buyer, and the market is refreshed exactly when the maximum asset count rose to anything but six |
| RoundRules.AfterPurchaseKeepsRoundInv | game/src/game/round.rs:176-190 | the bookkeeping after a purchase keeps the round well formed |
| RoundRules.PlayCardEffects | game/src/game/round.rs:167-210 | a play comes from the current player, and no other player changes. A liability changes nothing more. After an asset, the final-round flag says whether someone owns six, and the buyer who first reaches that gets the six-asset bonus. The market is refreshed exactly when the maximum asset count grew to anything other than six; the new market is current and its events are appended |
| RoundRules.PlayedInRound | game/src/game/round.rs:167-210 | `player_play_card` on a round value: the gate, the player's play, then the bookkeeping after a purchase. `PlayCardEffects` and `PlayKeepsRoundInv` state its outcome |
| RoundRules.RedeemedInRound | game/src/game/round.rs:215-226 | a redemption by the current player goes through the player's rules, and the redeemed liability goes back onto the liability deck; the older snapshot does the same at game/src/game.rs:1427-1438 |
| RoundRules.DrewInRound | game/src/game/round.rs:230-251 | the current player draws exactly while under the limit, from the chosen deck only (its top card, or the reshuffled backup), and only that deck and that player change; the older snapshot does the same at game/src/game.rs:1442-1463 |
| RoundRules.GaveBackInRound | game/src/game/round.rs:255-272 | a give-back by the current player goes through the player's rules, and the card goes back onto the deck of its kind, whose kind is answered; the older snapshot does the same at game/src/game.rs:1467-1484 |
| RoundRules.FiredInRound | game/src/game/round.rs:277-286 | a fire by the current player goes through the player's rules, and the character joins the fired list; the older snapshot does the same at game/src/game.rs:1489-1498 |
| RoundRules.FiredIsSkipped | game/src/game/round.rs:68-76 | after a fire, the next player never holds the fired character |
| RoundRules.SwappedWithDeckInRound | game/src/game/round.rs:291-306 | a deck swap by the current player, where it does not panic, goes through the player's rules; the taken assets and liabilities are put back at the bottom of their decks, and the answer is their counts; the older snapshot does the same at game/src/game.rs:1503-1518 |
| RoundRules.SwappedWithPlayerInRound | game/src/game/round.rs:310-346 | two distinct, existing players are needed, else `InvalidTargetPlayer`; the regulator's rules decide, and the answer is the two new hands |
| RoundRules.SwapWithPlayerExchangesHands | game/src/game/round.rs:310-346 | a hand swap exchanges exactly the two hands and leaves every other player alone; the older snapshot does the same at game/src/game.rs:1522-1558 |
| RoundRules.DivestedInRound | game/src/game/round.rs:351-386 | two distinct, existing players are needed, else `InvalidCharacter`; the stakeholder pays the cost and the target loses the asset |
| RoundRules.DivestMovesAsset | game/src/game/round.rs:351-386 | a divest costs the stakeholder the asset's current divest cost, removes exactly that asset from the target, and leaves every other player alone; the older snapshot does the same at game/src/game.rs:1563-1598 |
| RoundRules.ToSelectingPlayers | game/src/game/round.rs:473 | at the hand-over every round player becomes a picker, in order |
| RoundRules.ToResultsPlayers | game/src/game/round.rs:490-496 | at the end of the game every round player becomes a results player under the final market |
| RoundRules.NextChairman | game/src/game/round.rs:459-463 | the new chairman is whoever holds the CEO, else the old chairman stays |
| RoundRules.EndedTurn | game/src/game/round.rs:439-508 | the gate's errors come first, then `PlayerShouldGiveBackCard` while a give-back is owed; a hand-over keeps the round itself |
| RoundRules.EndTurnEffects | game/src/game/round.rs:439-508 | the turn passes exactly when there is a next player, who becomes current and receives the turn cash while no one else changes. Otherwise the round hands over: to the results when it was the final round, and to a new draft under the next chairman otherwise, with every player and the round's events carried |
| RoundRules.ReplacedPlayerKeepsRoundInv | game/src/game/round.rs:12-24 | replacing a player with a well-formed one of the same id keeps the round well formed |
| RoundRules.PlayerOperationsKeepId | game/src/player/round.rs:146-394 | no player operation changes a player's id (a deck swap where it does not panic), and a hand swap changes only the target's hand |
| RoundRules.PlayKeepsRoundInv | game/src/game/round.rs:167-210 | a play keeps the round well formed |
| RoundRules.CardMovesKeepRoundInv | game/src/game/round.rs:215-272 | redeeming, drawing and giving back keep the round well formed |
| RoundRules.RedeemKeepsRoundInv | game/src/game/round.rs:215-226 | a redemption keeps the round well formed |
| RoundRules.DrawKeepsRoundInv | game/src/game/round.rs:230-251 | a draw keeps the round well formed |
| RoundRules.GiveBackKeepsRoundInv | game/src/game/round.rs:255-272 | a give-back keeps the round well formed |
| RoundRules.OwnAbilitiesKeepRoundInv | game/src/game/round.rs:277-306 | firing, and a deck swap that does not panic, keep the round well formed |
| RoundRules.FireKeepsRoundInv | game/src/game/round.rs:277-286 | a fire keeps the round well formed |
| RoundRules.SwapWithDeckKeepsRoundInv | game/src/game/round.rs:291-306 | a deck swap that does not panic keeps the round well formed |
| RoundRules.TargetAbilitiesKeepRoundInv | game/src/game/round.rs:310-386 | a hand swap and a divest keep the round well formed |
| RoundRules.SwapWithPlayerKeepsRoundInv | game/src/game/round.rs:310-346 | a hand swap keeps the round well formed |
| RoundRules.DivestKeepsRoundInv | game/src/game/round.rs:351-386 | a divest keeps the round well formed |
| RoundRules.EndTurnKeepsRoundInv | game/src/game/round.rs:439-508 | ending a turn keeps the round well formed |
| Rounds.Round.constructor | game/src/game/selecting_characters.rs:135-147 | a fresh round over the given players, sharing the draft's decks, with no fired characters and not yet the final round |
| Rounds.Round.RefreshMarket | game/src/game/round.rs:535-550 | draws from the market deck until a market comes up: that market becomes current, the events before it are appended and returned with it; the older snapshot does the same at game/src/game.rs:1735-1750 |
| Rounds.Round.PlayerPlayCard | game/src/game/round.rs:167-210 | an in-place play does what `PlayedInRound` says and keeps the round well formed |
| Rounds.Round.AfterAssetBought | game/src/game/round.rs:176-190 | the in-place bookkeeping after a purchase (six-asset bonus, final-round flag, market refresh) does what `AfterPurchase` says |
| Rounds.Round.PlayerRedeemLiability | game/src/game/round.rs:215-226 | an in-place redemption does what `RedeemedInRound` says |
| Rounds.Round.PlayerDrawCard | game/src/game/round.rs:230-251 | an in-place draw does what `DrewInRound` says |
| Rounds.Round.DrawAssetFor | game/src/game/round.rs:239-242 | the asset branch of the in-place draw |
| Rounds.Round.DrawLiabilityFor | game/src/game/round.rs:243-246 | the liability branch of the in-place draw |
| Rounds.Round.PlayerGiveBackCard | game/src/game/round.rs:255-272 | an in-place give-back does what `GaveBackInRound` says |
| Rounds.Round.PlayerFireCharacter | game/src/game/round.rs:277-286 | an in-place fire does what `FiredInRound` says |
| Rounds.Round.PlayerSwapWithDeck | game/src/game/round.rs:291-306 | an in-place deck swap that does not panic does what `SwappedWithDeckInRound` says |
| Rounds.Round.PlayerSwapWithPlayer | game/src/game/round.rs:310-346 | an in-place hand swap does what `SwappedWithPlayerInRound` says |
| Rounds.Round.PlayerDivestAsset | game/src/game/round.rs:351-386 | an in-place divest does what `DivestedInRound` says |
| Rounds.Round.EndPlayerTurn | game/src/game/round.rs:439-508 | an in-place end of turn does what `EndedTurn` says; a hand-over leaves the round as it was |
| BankerTargetPlayers.AssetAt | game/src/player/banker_target.rs:40-44 | the asset at an index, or `InvalidAssetIndex` exactly when the index is out of range |
| BankerTargetPlayers.SelectedDivestAsset | game/src/player/banker_target.rs:244-266 | selecting an asset to sell succeeds exactly for a valid, unselected asset worth something in the market. In order, the errors are `InvalidAssetId`, `AssetAlreadySelected` and `AssetValueToLow`. On success the asset is recorded with its market value, and earlier choices are kept |
| BankerTargetPlayers.UnselectedDivestAsset | game/src/player/banker_target.rs:269-284 | unselecting succeeds exactly for a valid, selected asset, else `InvalidAssetId` or `AssetNotSelected`, and drops only that choice |
| BankerTargetPlayers.SelectedIssueLiability | game/src/player/banker_target.rs:288-312 | a CFO may select up to three distinct liabilities from its hand. In order, the errors are `NotCFO`, `InvalidLiabilityId`, `AlreadySelected3Liabilities` and `LiabilityAlreadySelected`. On success the liability is recorded with its value |
| BankerTargetPlayers.UnselectedIssueLiability | game/src/player/banker_target.rs:315-329 | unselecting succeeds exactly for a selected liability in hand, else `InvalidLiabilityId` or `LiabilityNotSelected` |
| BankerTargetPlayers.SelectUnselectRoundTrip | game/src/player/banker_target.rs:244-329 | unselecting what was just selected restores the earlier choices |
| BankerTargetPlayers.AssetChoicesKeepSelectionsValid | game/src/player/banker_target.rs:244-284 | asset choices keep every selection a valid index recorded with its market value |
| BankerTargetPlayers.LiabilityChoicesKeepSelectionsValid | game/src/player/banker_target.rs:288-329 | liability choices keep the selections valid hand liabilities, at most three |
| BankerTargetPlayers.PaidBanker | game/src/player/banker_target.rs:168-241 | under `PaymentDoesNotPanic` (the choices fit the payer whenever the payment is covered), paying succeeds exactly when cash plus the selected values cover the amount, else `NotEnoughCash`. The banker gains the amount; the target's cash becomes cash + raised - amount. Exactly the selected assets leave its assets, and exactly the selected liabilities leave its hand, each using one allowance; nothing else changes |
| BankerTargetPlayers.PaidBankerIs | game/src/player/banker_target.rs:168-241 | a payment that is covered has exactly this outcome: the banker gains the amount; the target's cash is cash + raised - amount, the selected assets and hand cards are gone and one allowance per liability is used |
| BankerTargetPlayers.PaymentConservesCash | game/src/player/banker_target.rs:176-179 | the payment moves cash between the two players: their total grows by exactly what the sales raised |
| BankerTargetPlayers.ShortPaymentIsRefused | game/src/player/banker_target.rs:176-240 | when cash plus the chosen values fall short of the amount, no requirement applies and the payment is refused with `NotEnoughCash`, whatever was chosen |
| BankerTargetPlayers.PositiveAssets | game/src/player/banker_target.rs:64-71 | every asset sold in a bankruptcy is a valid index recorded with its positive market value |
| BankerTargetPlayers.PositiveAssetsComplete | game/src/player/banker_target.rs:64-71 | every asset with a positive market value is sold |
| BankerTargetPlayers.SoldInRange | game/src/player/banker_target.rs:123-131 | the positions of the sold assets lie inside the asset list |
| BankerTargetPlayers.IssuedInRange | game/src/player/banker_target.rs:73-89 | where the drops stay in range, the positions of the issued liabilities, being ranks, lie inside the hand |
| BankerTargetPlayers.HandLiabilitiesAsWritten | game/src/player/banker_target.rs:73-89 | the liabilities as collected in the source: numbered by their rank among the hand's liabilities, at most one per card |
| BankerTargetPlayers.HandLiabilities | game/src/player/banker_target.rs:73-89 | the corrected collection: each liability is recorded with its position in the hand |
| BankerTargetPlayers.AsWrittenListsSameLiabilities | game/src/player/banker_target.rs:73-89 | the collection as written lists the same liabilities, in the same order, as the corrected one; entry k is recorded with position k |
| BankerTargetPlayers.RankIsNotHandPosition | game/src/player/banker_target.rs:73-89 | for the hand [asset, liability], the source records position 0, which holds the asset; the corrected collection records position 1 (see Findings) |
| BankerTargetPlayers.RunningMaxIndex | game/src/player/banker_target.rs:100-111 | the index the source's inner loop computes, a count of running-maximum records, at most the list length |
| BankerTargetPlayers.RecordsAbove | game/src/player/banker_target.rs:100-111 | the count of records above a running maximum, at most the list length |
| BankerTargetPlayers.RunningMaxIndexMisses | game/src/player/banker_target.rs:100-112 | with increasing values 1..4 the computed index equals the length, past the end of the list; with values 1, 5, 5, 5 it removes a liability that is not the smallest (see Findings) |
| BankerTargetPlayers.SmallestIndex | game/src/player/banker_target.rs:97-112 | the corrected choice: the first liability of least value |
| BankerTargetPlayers.KeepLargestThree | game/src/player/banker_target.rs:91-113 | removing the smallest until three remain keeps min(n, 3) of the collected liabilities |
| BankerTargetPlayers.KeepLargestThreeKeepsLargest | game/src/player/banker_target.rs:72-113 | no dropped liability is worth more than a kept one, so the three most valuable are kept |
| BankerTargetPlayers.BankruptSold | game/src/player/banker_target.rs:64-71 | a bankruptcy sells exactly the assets worth something |
| BankerTargetPlayers.BankruptIssued | game/src/player/banker_target.rs:72-113 | the liabilities `go_bankrupt_for_banker` issues, as written, where its drops stay in range (`BankruptDropsInRange`): none for anyone but the CFO; for the CFO, the hand's liabilities numbered by rank, less `Surplus` of them dropped by the running-maximum loop, so at most three, each one of those collected |
| BankerTargetPlayers.Surplus | game/src/player/banker_target.rs:91-96 | the outer loop runs len - 3 times for more than three liabilities and not at all otherwise |
| BankerTargetPlayers.DropRunningMax | game/src/player/banker_target.rs:97-112 | n rounds of the outer loop, each removing at the running-maximum index, when they stay in range: n fewer liabilities, each one of the list given |
| BankerTargetPlayers.BankruptRemovesWrongCard | game/src/player/banker_target.rs:72-144 | a CFO holding an asset and then a liability issues that liability as position 0, and going bankrupt removes the asset from its hand and leaves the liability (see Findings) |
| BankerTargetPlayers.BankruptPanicsOnRisingLiabilities | game/src/player/banker_target.rs:97-112 | a CFO holding liabilities worth 1, 2, 3 and 4 cannot go bankrupt without a panic: the one drop removes at position 4 of four (see Findings) |
| BankerTargetPlayers.BankruptcySettles | game/src/player/banker_target.rs:54-165 | going bankrupt as written, where its drops stay in range: the sold assets and the liabilities `BankruptIssued` lists always leave the player, the hand losing the cards at their recorded positions, each using one allowance. The result is `Ok` exactly when the total (cash plus sales) falls short of the amount: the banker then receives the total and the target keeps 0. Otherwise `NotRightCashAmount(total, amount)` and no cash moves |
| BankerTargetPlayers.LiquidatedParts | game/src/player/banker_target.rs:60-124 | going bankrupt as written selects every asset worth something under the market and, for a CFO, the liabilities `BankruptIssued` lists; the proceeds are the two totals and the sale itself leaves the cash alone |
| BankerTargetPlayers.LiquidatedLengths | game/src/player/banker_target.rs:125-144 | the sale removes exactly as many assets and hand cards as it selected |
| BankerTargetPlayers.SettlementOutcome | game/src/player/banker_target.rs:145-164 | with total = cash + proceeds, settling succeeds exactly when the total falls short of the amount; then the target keeps 0, the banker gains the total and the report says so; otherwise `NotRightCashAmount(total, amount)` and no cash moves |
| BankerTargetPlayers.WentBankrupt | game/src/player/banker_target.rs:54-165 | `go_bankrupt_for_banker` as written on values: liquidate, then settle. `BankruptcySettles`, `LiquidatedParts` and `BankruptKeepsNothingOfValue` state its outcome |
| BankerTargetPlayers.Liquidated | game/src/player/banker_target.rs:60-144 | the sale of a bankruptcy. `LiquidatedParts` and `LiquidatedLengths` state what it removes and raises |
| BankerTargetPlayers.Settlement | game/src/player/banker_target.rs:145-164 | the settlement of a bankruptcy. `SettlementOutcome` states when the banker is paid |
| BankerTargetPlayers.BankruptKeepsNothingOfValue | game/src/player/banker_target.rs:54-71 | after a bankruptcy, no remaining asset is worth anything in the market |
| BankerTargetPlayers.RoundFromBankerTarget | game/src/player/banker_target.rs:333-353 | back in the round a player keeps id, name, cash, character, cards and liability allowance, gets its character's asset allowance afresh and no used abilities |
| BankerTargetPlayers.RoundFromBankerTargetRef | game/src/player/round.rs:627-649 | the by-reference conversion back into the round keeps id, name, cash, character, cards, liability allowance and the six-asset flag, gets the asset allowance afresh and no used abilities or bonus cash |
| BankerTargetPlayers.BankerTargetRoundTrip | game/src/player/round.rs:612-649 | leaving the round for the banker's target phase and coming back by reference keeps a well-formed player's identity, cash, cards, allowances, six-asset flag and humanity; the by-value conversion gives the same player with the six-asset flag reset |
| BankerTargetPlayers.BankerTargetPlayer.PayBanker | game/src/player/banker_target.rs:168-241 | an in-place payment does what `PaidBanker` says, and reports the amount, both new cash values, the two ids and the selected cards |
| BankerTargetPlayers.BankerTargetPlayer.Pay | game/src/player/banker_target.rs:168-241 | the payment over the two players' values does what `PaidBanker` says, reports amount, both new cash values, both ids and the selected cards, and changes only the target's cash, assets, hand and allowance and the banker's cash |
| BankerTargetPlayers.BankerTargetPlayer.GoBankruptForBanker | game/src/player/banker_target.rs:54-165 | an in-place bankruptcy, where the liability drops stay in range, does what `WentBankrupt`, the code as written, says |
| BankerTargetPlayers.BankerTargetPlayer.Bankrupt | game/src/player/banker_target.rs:54-165 | the bankruptcy over the two players' values does what `WentBankrupt` says and changes only the target's assets, hand, allowance and cash and the banker's cash |
| BankerTargetPlayers.BankerTargetPlayer.Liquidate | game/src/player/banker_target.rs:60-144 | the sale, by loops, yields what `Liquidated` gives |
| BankerTargetPlayers.BankerTargetPlayer.CollectIssued | game/src/player/banker_target.rs:72-113 | the CFO's liabilities, collected and dropped by loops as written, are what `BankruptIssued` gives |
| BankerTargetPlayers.BankerTargetPlayer.CollectHandLiabilities | game/src/player/banker_target.rs:73-89 | the `enumerate` after `filter`, as a loop, gives `HandLiabilitiesAsWritten` |
| BankerTargetPlayers.BankerTargetPlayer.DropSurplus | game/src/player/banker_target.rs:91-112 | the outer loop, as written, gives `DropRunningMax` of all but three |
| BankerTargetPlayers.BankerTargetPlayer.RunningMax | game/src/player/banker_target.rs:100-108 | the inner loop, as written, computes `RunningMaxIndex` |
| BankerTargetRounds.ColorsHeldBound | game/src/game/banker_target.rs:159-165 | a player holds at most five distinct asset colours |
| BankerTargetRounds.ColorsHeld | game/src/game/banker_target.rs:159-165 | the set of colours among the assets, the `HashSet` the source counts. `ColorsHeldBound`, `GoldOwed` and `GoldOwedGrowsWithNewColors` state its size |
| BankerTargetRounds.GoldOwed | game/src/game/banker_target.rs:159-165 | the gold owed to the banker is one plus the number of distinct colours among the target's assets: between 1 and 6, and 1 with no assets |
| BankerTargetRounds.GoldOwedGrowsWithNewColors | game/src/game/banker_target.rs:159-165 | one more asset raises the debt by one exactly when its colour is new |
| BankerTargetRounds.Funds | game/src/game/banker_target.rs:170-176 | an asset contributes its market value when positive, else nothing |
| BankerTargetRounds.AssetFundsAreBankruptSales | game/src/game/banker_target.rs:166-177 | the asset funds counted when entering are exactly what a bankruptcy would raise from selling |
| BankerTargetRounds.AssetFunds | game/src/game/banker_target.rs:166-177 | the positive market values summed. `AssetFundsAreBankruptSales` states that they are what a bankruptcy would raise from selling |
| BankerTargetRounds.SumThree | game/src/game/banker_target.rs:192 | the sum of three values |
| BankerTargetRounds.Inserted | game/src/game/banker_target.rs:190 | inserting into an ascending list keeps it ascending and adds exactly that value |
| BankerTargetRounds.SortedAscending | game/src/game/banker_target.rs:190 | `sort` yields an ascending permutation |
| BankerTargetRounds.LiabilityFunds | game/src/game/banker_target.rs:178-195 | only a CFO counts liabilities; with at most three in hand, their sum |
| BankerTargetRounds.SmallestThreeCounted | game/src/game/banker_target.rs:185-193 | with more than three, the CFO counts the three smallest values in hand |
| BankerTargetRounds.NonCfoCanPayIffLiquidationCovers | game/src/game/banker_target.rs:158-218 | for a target other than the CFO, it can pay exactly when the debt is at most its cash plus what a bankruptcy would raise |
| BankerTargetRounds.CanPayBanker | game/src/game/banker_target.rs:211-212 | `can_pay_banker`: the gold owed is at most the liability funds, the asset funds and the cash. `NonCfoCanPayIffLiquidationCovers` and `EnteredFromRound` state what it means |
| BankerTargetRounds.EnteredFromRound | game/src/game/banker_target.rs:158-218 | entering the phase keeps the round's players (as banker targets), decks, chairman, market, events, characters and final-round flag. The gold owed is that of the current player's assets, `can_pay_banker` is as reckoned, and nothing is selected |
| BankerTargetRounds.FromRoundKeepsInv | game/src/game/banker_target.rs:158-218 | entering from a well-formed round gives a well-formed phase whose current player keeps its cash and cards |
| BankerTargetRounds.TargetAsCurrent | game/src/game/banker_target.rs:67-76 | only the current player passes the gate: `InvalidPlayerIndex` for an unknown id, `NotPlayersTurn` for another |
| BankerTargetRounds.TargetByName | game/src/game/banker_target.rs:57-62 | finds a player with that name, or `InvalidPlayerName(name)` exactly when there is none |
| BankerTargetRounds.BankerPosition | game/src/game/banker_target.rs:84-89 | the position of the player holding the Banker, or nothing exactly when nobody does |
| BankerTargetRounds.SelectedDivestAssetInRound | game/src/game/banker_target.rs:107-117 | the current player's asset choice goes through the player's rules; only the asset selections change |
| BankerTargetRounds.UnselectedDivestAssetInRound | game/src/game/banker_target.rs:120-129 | the current player's asset unchoice goes through the player's rules; only that selection is dropped |
| BankerTargetRounds.SelectedIssueLiabilityInRound | game/src/game/banker_target.rs:132-141 | the current player's liability choice goes through the player's rules; only the liability selections change |
| BankerTargetRounds.UnselectedIssueLiabilityInRound | game/src/game/banker_target.rs:144-153 | the current player's liability unchoice goes through the player's rules; only that selection is dropped |
| BankerTargetRounds.ChoicesKeepTargetRoundInv | game/src/game/banker_target.rs:107-153 | every choice keeps the phase well formed |
| BankerTargetRounds.SelectUnselectInRoundRoundTrip | game/src/game/banker_target.rs:107-153 | unchoosing what was just chosen restores the phase |
| BankerTargetRounds.FreshTargetPaymentFits | game/src/game/banker_target.rs:93-96 | valid choices by a target with its full liability allowance can be paid out |
| BankerTargetRounds.PaidBankerInRound | game/src/game/banker_target.rs:79-104 | without a banker, or with an unknown or same payer, `NoBankerPlayer`; any amount other than the gold owed, `NotRightCashAmount(gold owed, amount)`, the fields the model supplies where the source gives none. Otherwise the payment succeeds exactly when funds cover it: the banker gains the amount, the payer keeps cash + raised - amount, and no other player changes |
| BankerTargetRounds.PaymentConservesCashInRound | game/src/game/banker_target.rs:79-104 | payer and banker together gain exactly what the sales raised |
| BankerTargetRounds.BankerTargetRound.FromRound | game/src/game/banker_target.rs:158-218 | builds the phase `EnteredFromRound` describes |
| BankerTargetRounds.BankerTargetRound.PlayerSelectDivestAsset | game/src/game/banker_target.rs:107-117 | an in-place choice does what `SelectedDivestAssetInRound` says |
| BankerTargetRounds.BankerTargetRound.PlayerUnselectDivestAsset | game/src/game/banker_target.rs:120-129 | an in-place unchoice does what `UnselectedDivestAssetInRound` says |
| BankerTargetRounds.BankerTargetRound.PlayerSelectIssueLiability | game/src/game/banker_target.rs:132-141 | an in-place choice does what `SelectedIssueLiabilityInRound` says |
| BankerTargetRounds.BankerTargetRound.PlayerUnselectIssueLiability | game/src/game/banker_target.rs:144-153 | an in-place unchoice does what `UnselectedIssueLiabilityInRound` says |
| BankerTargetRounds.BankerTargetRound.PlayerPayBanker | game/src/game/banker_target.rs:79-104 | an in-place payment does what `PaidBankerInRound` says, and reports the amount, the payer and its cards |
| ResultsPlayers.ResultsFromRound | game/src/player/results.rs:27-40 | a results player keeps the round player's id, name, cash and cards, takes the final market, and has no toggles or confirmations |
| ResultsPlayers.ResultsInfo | game/src/player/results.rs:323-333 | the public info shows the hand only as kinds and no character |
| ResultsPlayers.AbilityPrecheck | game/src/player/results.rs:77-86 | an asset ability is allowed exactly for a valid, unconfirmed asset; otherwise `InvalidAssetIndex`, then `AlreadyConfirmedAssetIndex` |
| ResultsPlayers.RaisedMarket | game/src/player/results.rs:90-103 | starting again from the final market, the chosen colour's condition is raised one step (minus to zero, zero to plus) and nothing else changes |
| ResultsPlayers.MinusIntoPlusIdempotent | game/src/player/results.rs:90-103 | because it restarts from the final market, choosing the same colour twice equals choosing it once |
| ResultsPlayers.FoldSilver | game/src/player/results.rs:149-150 | turning silver into gold moves the whole silver value into gold |
| ResultsPlayers.UnfoldSilver | game/src/player/results.rs:116-117 | the corrected undo moves a recorded silver value back out of gold |
| ResultsPlayers.ToggledSilver | game/src/player/results.rs:106-166 | the toggle as written: errors come from the precheck; only assets and the record change. A recorded asset is first reset by its recorded silver; every asset other than it and the asked one is unchanged. A new asset is folded and recorded with silver 0; toggling the recorded asset again clears the record |
| ResultsPlayers.ToggledColor | game/src/player/results.rs:170-217 | the colour toggle as written; assets other than the recorded and the asked one are unchanged, and those two change only in colour when a record exists. A second asset gets the colour and the first gets back its recorded colour. Toggling the recorded asset again restores it but clears the silver record. A first toggle folds silver into gold and records the unchanged colour |
| ResultsPlayers.SilverToggleDoesNotUndo | game/src/player/results.rs:160-162 | as written, the record of a first silver toggle holds the asset's silver after folding, 0 (also at lines 126-129), so toggling the same asset twice does not restore it: the silver is lost (see Findings) |
| ResultsPlayers.FirstColorToggleKeepsColor | game/src/player/results.rs:201-212 | as written, a first colour toggle leaves the asset's colour unchanged (see Findings) |
| ResultsPlayers.ColorUndoClearsWrongRecord | game/src/player/results.rs:197 | as written, undoing a colour toggle clears the silver-into-gold record and keeps the colour record (see Findings) |
| ResultsPlayers.ToggledSilverRestoring | game/src/player/results.rs:106-166 | the corrected silver toggle: same errors, only assets and the silver record change |
| ResultsPlayers.SilverToggleRestoringUndoes | game/src/player/results.rs:106-166 | with the corrected toggle, toggling the same asset twice gives back the original player |
| ResultsPlayers.ToggledColorRestoring | game/src/player/results.rs:170-217 | the corrected colour toggle: same errors, only assets and the colour record change, and a new asset takes the chosen colour |
| ResultsPlayers.ColorToggleRestoringUndoes | game/src/player/results.rs:170-217 | with the corrected toggle, toggling the same asset twice gives back the original player |
| ResultsPlayers.Confirmed | game/src/player/results.rs:221-227 | confirming passes the precheck and appends the index to the confirmed list, changing nothing else |
| ResultsPlayers.ConfirmedIndexIsFinal | game/src/player/results.rs:77-86 | a confirmed asset can be neither confirmed nor toggled again |
| ResultsPlayers.LoansAddUp | game/src/player/results.rs:240-260 | trade credit, bank loans and bonds add up to the whole debt |
| ResultsPlayers.TotalGold | game/src/player/results.rs:230-232 | `total_gold`: the gold values summed. `TotalsUpdate` and `TogglesConserveValue` state how it changes |
| ResultsPlayers.TotalSilver | game/src/player/results.rs:235-237 | `total_silver`: the silver values summed. `TotalsUpdate` and `TogglesConserveValue` state how it changes |
| ResultsPlayers.Loan | game/src/player/results.rs:240-245 | `calc_loan`: the values of the liabilities of one type summed. `LoansAddUp` states that the three types make up the debt |
| ResultsPlayers.TotalDebt | game/src/player/results.rs:240-260 | all liability values summed, the reference `LoansAddUp` compares `trade_credit`, `bank_loan` and `bonds` with |
| ResultsPlayers.TotalsUpdate | game/src/player/results.rs:230-237 | replacing one asset changes total gold and silver by exactly the difference |
| ResultsPlayers.TogglesConserveValue | game/src/player/results.rs:106-217 | the toggles never change an asset's gold plus silver, summed over the player |
| ResultsPlayers.ResultsPlayer.MinusIntoPlus | game/src/player/results.rs:90-103 | in place, the player's market becomes `RaisedMarket` and is returned |
| ResultsPlayers.ResultsPlayer.ToggleSilverIntoGold | game/src/player/results.rs:106-166 | an in-place toggle does what `ToggledSilver`, the toggle as written, says |
| ResultsPlayers.ResultsPlayer.ToggleChangeAssetColor | game/src/player/results.rs:170-217 | an in-place toggle does what `ToggledColor`, the toggle as written, says |
| ResultsPlayers.ResultsPlayer.ConfirmAssetAbility | game/src/player/results.rs:221-227 | an in-place confirmation does what `Confirmed` says |
| Results.FromRoundKeepsResultsInv | game/src/game/round.rs:490-500 | the results built from a round's players are well formed |
| Results.ResultsByName | game/src/game/results.rs:24-29 | finds a player with that name, or `InvalidPlayerName(name)` exactly when there is none |
| Results.PlayerScores | game/src/game/results.rs:39-44 | one score entry per player, in order, with its id, name and score |
| Results.ScoresNameEveryPlayerOnce | game/src/game/results.rs:39-44 | entry i belongs to player i, and no id appears twice |
| Results.ResultsOthersInfo | game/src/game/results.rs:47-53 | at most one info entry per player |
| Results.ResultsOthersInfoSkipsSelf | game/src/game/results.rs:47-53 | the info of every player but the asker, in order; an unknown asker gets everyone's |
| Results.RaisedFor | game/src/game/results.rs:67-72 | for a known player, its market becomes the final market with the colour raised, which is returned; otherwise `InvalidPlayerIndex` |
| Results.ToggledSilverFor | game/src/game/results.rs:75-84 | the known player's silver toggle as written (`ToggledSilver`), others untouched; otherwise `InvalidPlayerIndex` |
| Results.ToggledColorFor | game/src/game/results.rs:87-97 | the known player's colour toggle as written (`ToggledColor`), others untouched; otherwise `InvalidPlayerIndex` |
| Results.ConfirmedFor | game/src/game/results.rs:101-108 | the known player's confirmation, others untouched; otherwise `InvalidPlayerIndex` |
| Results.AbilitiesKeepResultsInv | game/src/game/results.rs:67-108 | every end-of-game ability keeps the results well formed, touches only the acting player and keeps the final market and events |
| Results.RaisedKeepsResultsInv | game/src/game/results.rs:67-73 | `minus_into_plus` keeps the results well formed |
| Results.ToggledSilverKeepsResultsInv | game/src/game/results.rs:75-85 | `toggle_silver_into_gold` keeps the results well formed, changes only player `id` and keeps the final market and events |
| Results.ToggledColorKeepsResultsInv | game/src/game/results.rs:87-99 | `toggle_change_asset_color` keeps the results well formed, changes only player `id` and keeps the final market and events |
| Results.ConfirmedKeepsResultsInv | game/src/game/results.rs:101-108 | `confirm_asset_ability` keeps the results well formed and changes only player `id` |
| Results.ResultsPhase.constructor | game/src/game/round.rs:498-501 | the results of the given players, final market and events |
| Results.ResultsPhase.MinusIntoPlus | game/src/game/results.rs:67-72 | an in-place raise does what `RaisedFor` says |
| Results.ResultsPhase.ToggleSilverIntoGold | game/src/game/results.rs:75-84 | an in-place toggle does what `ToggledSilverFor`, the toggle as written, says |
| Results.ResultsPhase.ToggleChangeAssetColor | game/src/game/results.rs:87-97 | an in-place toggle does what `ToggledColorFor`, the toggle as written, says |
| Results.ResultsPhase.ConfirmAssetAbility | game/src/game/results.rs:101-108 | an in-place confirmation does what `ConfirmedFor` says |
| Cards.Expand | game/src/cards.rs:224-246 | expanding a catalogue gives one card per copy |
| Cards.TotalCopiesPrefix | game/src/cards.rs:224-246 | the copies of the entries before an entry, plus its own, fit in the deck |
| Cards.ExpandBlock | game/src/cards.rs:224-246 | the copies of each entry lie in its own block, in entry order |
| Cards.ExpandMember | game/src/cards.rs:224-246 | every card of the deck comes from some entry |
| Cards.AssetDeckFrom | game/src/cards.rs:223-246 | `From<Deck<AssetCard>>`: each entry expanded into its copies. `AssetDeckFromEntries` and `AssetDeckBackImage` state the deck |
| Cards.LiabilityDeckFrom | game/src/cards.rs:249-269 | `From<Deck<LiabilityCard>>`. `LiabilityDeckFromEntries` states the deck |
| Cards.MarketDeckFrom | game/src/cards.rs:272-307 | `From<Deck<MarketEventCard>>`. `MarketDeckFromEntries` and `MarketDeckEventsAreBlank` state the deck |
| Cards.GameDataFrom | game/src/cards.rs:310-318 | `From<LoadedCards> for GameData`: each of the three decks converted on its own, as the three lemmas above state |
| Cards.AssetDeckFromEntries | game/src/cards.rs:224-246 | the asset deck has one card per copy, in entry order, with the entry's values and the deck's back image; the backup equals the deck |
| Cards.AssetDeckBackImage | game/src/cards.rs:224-246 | every asset carries the deck's back image |
| Cards.LiabilityDeckFromEntries | game/src/cards.rs:250-269 | the liability deck has one card per copy; each value is the entry's gold value and its type the entry's type; the backup equals the deck |
| Cards.MarketDeckFromEntries | game/src/cards.rs:273-307 | the market deck has one card per copy, a market exactly for the market-status entries |
| Cards.MarketDeckEventsAreBlank | game/src/cards.rs:292-300 | every event of the deck raises nothing, lowers nothing and makes nobody skip a turn |
| Games.AccessorsMatchPhase | game/src/game/mod.rs:622-740 | exactly one phase accessor succeeds, returning the phase the state is in; the others answer `NotLobbyState`, `NotSelectingCharactersState`, `NotRoundState` or `NotResultsState`; the older snapshot does the same at game/src/game.rs:551-669 |
| Games.NewGameIsEmptyLobby | game/src/game/mod.rs:609-611 | a new game is an empty, well-formed lobby; the older snapshot does the same at game/src/game.rs:538-540 |
| Games.StartedGameState | game/src/game/mod.rs:746-754 | starting is refused outside the lobby with `NotLobbyState` |
| Games.SelectedState | game/src/game/mod.rs:759-771 | picking is refused outside the draft with `NotSelectingCharactersState` |
| Games.EndedTurnState | game/src/game/mod.rs:778-791 | ending a turn is refused outside a round with `NotRoundState` |
| Games.StartGameKeepsGameInv | game/src/game/mod.rs:746-754 | starting succeeds exactly from a lobby of 4 to 7 players, else `InvalidPlayerCount`; the game is then a well-formed draft with chairman 0 at its first pick; the test `pick_characters` says the same: 0 to 3 and 8 or more players are refused with `InvalidPlayerCount(n)`, 4 to 7 are accepted (game/src/game/mod.rs:1109-1126); the older snapshot does the same at game/src/game.rs:675-683 |
| Games.SelectKeepsGameInv | game/src/game/mod.rs:759-771 | a pick keeps the game well formed; it is a round exactly after the last pick, else the draft has moved on by one |
| Games.EndTurnKeepsGameInv | game/src/game/mod.rs:778-791 | ending a turn keeps the game well formed. The answer names a next player exactly while the round goes on; otherwise it says the game ended. The state is then the results exactly when it was the final round |
| Games.GameState.constructor | game/src/game/mod.rs:609-611 | a new game is the empty lobby |
| Games.GameState.StartGame | game/src/game/mod.rs:746-754 | an in-place start does what `StartedGameState` says |
| Games.GameState.PlayerSelectCharacter | game/src/game/mod.rs:759-771 | an in-place pick does what `SelectedState` says |
| Games.GameState.EndPlayerTurn | game/src/game/mod.rs:778-791 | an in-place end of turn does what `EndedTurnState` says |
| LegacyPlayers.OldTurnCash | game/src/player.rs:574-581 | the older turn cash is 1 + asset bonus × (market bonus + 1), wrapped to a byte: 1 + 2 × bonus when the colour's market is up, 1 + bonus when flat, 1 when down or for an uncoloured character |
| LegacyPlayers.OldTurnCashIgnoresCash | game/src/player.rs:574-581 | the older turn cash depends on the character, the assets and the market, never on the cash held |
| LegacyPlayers.OldTurnCashAtLeastNewer | game/src/player.rs:574-581 | without wrap-around the older turn cash is never below the newer one, and exceeds it exactly when the player has assets of its colour and that market does not fall |
| LegacyPlayers.OldTurnStarted | game/src/player.rs:584-587 | starting a turn adds the older turn cash and changes nothing else |
| LegacyPlayers.OldStartTurnKeepsPlayerInv | game/src/player.rs:584-587 | starting a turn keeps a round player well formed |
| LegacyPlayers.StartTurnWithMarket | game/src/player.rs:584-587 | an in-place turn start does what `OldTurnStarted` says |
| LegacyRounds.OldAfterPurchase | game/src/game.rs:1409-1412 | after an asset, the older round refreshes the market exactly when the maximum asset count grew to anything other than six, and never touches the players or a final-round flag |
| LegacyRounds.OldPlayedInRound | game/src/game.rs:1399-1422 | the gate's errors and the player's play errors, in that order |
| LegacyRounds.OldPlayMatchesNewer | game/src/game.rs:1399-1422 | the older play succeeds exactly when the newer one does, with the same errors and the same answer. The states differ only in the final-round flag and the buyer's six-asset flag, which the older round never sets |
| LegacyRounds.OldAfterPurchaseMatches | game/src/game.rs:1409-1412 | after a purchase the older round refreshes the market as the newer one does and gives the same change; the two states differ only in the final-round flag, which the older one keeps, and in the buyer's six-asset flag |
| LegacyRounds.OldPlayKeepsRoundInv | game/src/game.rs:1399-1422 | the older play keeps the round well formed |
| LegacyRounds.OldEndedTurn | game/src/game.rs:1651-1714 | the gate's errors first, then `PlayerShouldGiveBackCard` while a give-back is owed; a hand-over keeps the round |
| LegacyRounds.OldEndTurnEffects | game/src/game.rs:1651-1714 | the turn passes exactly when there is a next player, who receives the older turn cash under the current market while no one else changes. Otherwise the game ends exactly when some player owns six assets at that moment, and every results player carries the final market. A new draft runs under the next chairman |
| LegacyRounds.OldEndTurnKeepsRoundInv | game/src/game.rs:1651-1714 | the older end of turn keeps the round well formed |
| LegacyRounds.PlayTurnScenario | game/src/game.rs:2148-2163 | the test turn: drawing asset, liability and asset succeeds; ending the turn is then refused, as a give-back is owed; giving back the last card succeeds; with 4 to 7 players the turn can then end |
| LegacyRounds.OldRoundFromDraftEffects | game/src/game.rs:1166-1206 | the older round after the last pick equals the newer one except for the first player's cash, which is raised by the older turn cash under the current market |
| LegacyRounds.OldRoundFromDraft | game/src/game.rs:1166-1206 | the older round after the last pick. `OldRoundFromNewer`, `OldRoundCash` and `OldRoundFromDraftInv` state how it differs from the newer one |
| LegacyRounds.OldRoundFromNewer | game/src/game.rs:1166-1206 | the older round of a completed draft is the newer round with the first player started by the older turn start instead of the newer one |
| LegacyRounds.OldRoundFromDraftInv | game/src/game.rs:1166-1206 | once everyone has picked, both rounds can be built and the older one is well formed |
| LegacyRounds.OldRoundCash | game/src/game.rs:1166-1206 | the older round has the newer round's current player and fields; every other player is the same and the first one differs only in cash, which is its drafted cash plus the older turn cash |
| LegacyRounds.OldSelectionMatchesNewer | game/src/game.rs:1152-1217 | an older pick succeeds exactly when the newer one does, with the same errors and the same draft; a round comes exactly with the last pick |
| LegacyRounds.OldSelectionOutcomes | game/src/game.rs:1152-1217 | the gate's and the draft's errors come first; otherwise the picker gets the character, the draft advances, and the older round is built exactly after the last pick |
| LegacyRounds.OldSelectedInPhase | game/src/game.rs:1152-1217 | the older `player_select_character` on a phase value. `OldSelectionMatchesNewer` and `OldSelectionOutcomes` state its errors and results |
| LegacyRounds.OldPlayerPlayCard | game/src/game.rs:1399-1422 | an in-place older play does what `OldPlayedInRound` says |
| LegacyRounds.OldAfterAssetBought | game/src/game.rs:1409-1412 | the in-place refresh after a purchase does what `OldAfterPurchase` says |
| LegacyRounds.OldEndPlayerTurn | game/src/game.rs:1651-1714 | an in-place older end of turn does what `OldEndedTurn` says |
| LegacyRounds.OldStartRound | game/src/game.rs:1166-1206 | builds the round `OldRoundFromDraft` describes, sharing the draft's decks |
| LegacyRounds.OldPlayerSelectCharacter | game/src/game.rs:1152-1217 | an in-place older pick does what `OldSelectedInPhase` says; on the last pick the fresh round shares the decks |
| LegacyRounds.OldCloseSelection | game/src/game.rs:1166-1213 | after the last pick the older round is built, else the draft goes on |
| LegacyGames.OldSelectedState | game/src/game.rs:688-700 | the older pick is refused outside the draft with `NotSelectingCharactersState` |
| LegacyGames.OldEndedTurnState | game/src/game.rs:707-720 | the older end of turn is refused outside a round with `NotRoundState` |
| LegacyGames.OldSelectKeepsGameInv | game/src/game.rs:688-700 | an older pick succeeds exactly when the newer one does, with the same errors; the game stays well formed, becomes a round exactly after the last pick, and otherwise is the newer draft |
| LegacyGames.OldEndTurnKeepsGameInv | game/src/game.rs:707-720 | the older end of turn keeps the game well formed; the answer names a next player exactly while the round goes on, and the game is in the results exactly when some player owns six assets |
| LegacyGames.OldHandOverKeepsGameInv | game/src/game.rs:707-720 | the phase the older round hands over to, a new draft or the results, is well formed |
| LegacyGames.LegacyGameState.PlayerSelectCharacter | game/src/game.rs:688-700 | an in-place older pick does what `OldSelectedState` says |
| LegacyGames.LegacyGameState.EndPlayerTurn | game/src/game.rs:707-720 | an in-place older end of turn does what `OldEndedTurnState` says |
| RequestHandler.GetResponses | server/src/request_handler.rs:14-16 | the responses for a player are present exactly when the map holds that player, and are then exactly the stored list |
| RequestHandler.RoundOthersReachOthers | server/src/request_handler.rs:171-184 | a map built over the round's players without the actor holds one single-note entry for every player except the actor, and nothing else |
| RequestHandler.RoundBystandersReachBystanders | server/src/request_handler.rs:615-652 | a map built over the round's players without the regulator and the target holds one single-note entry for every other player, and nothing else |
| RequestHandler.RoundEveryoneReachesAll | server/src/request_handler.rs:372-377 | a map built over all the round's players holds one single-note entry for each of them, and nothing else |
| RequestHandler.ResultsEveryoneReachesAll | server/src/request_handler.rs:693-769 | a map built over all the players in the results holds one single-note entry for each of them, and nothing else |
| RequestHandler.SelectingViewIsPrivate | server/src/request_handler.rs:47-56 | in a player's view of the draft, the selectable characters are shown only to the player now picking, and the closed character only to the chairman on the first pick |
| RequestHandler.SelectingViewsPerPlayer | server/src/request_handler.rs:351-368 | every player of the draft, and nobody else, gets exactly their own view of the draft |
| RequestHandler.StartGameViewsPerPlayer | server/src/request_handler.rs:34-60 | at the start every player, and nobody else, gets their own start message followed by their own view of the draft |
| RequestHandler.DrawCardIsAnonymous | server/src/request_handler.rs:162-194 | a draw succeeds exactly when the game is in a round and the round's draw does; a failure is that error with no messages; on success the drawn card is in the actor's answer only, and every other player gets just who drew which kind of card |
| RequestHandler.PutBackCardIsAnonymous | server/src/request_handler.rs:196-228 | a give-back succeeds exactly when the round's give-back does; a failure is that error with no messages; on success the card index is in the actor's answer only, and every other player gets just who gave back which kind of card |
| RequestHandler.PlayCardIsPublic | server/src/request_handler.rs:230-292 | playing succeeds exactly when the round's play does; a failure is that error with no messages; on success every other player learns the card played, as a bought asset with the market it brought or as an issued liability |
| RequestHandler.SelectCharacterViews | server/src/request_handler.rs:339-392 | a pick succeeds exactly when the game's pick does, with the same error otherwise; while the draft goes on every player gets their own draft view, with selectable characters only for the one now picking; once the round starts every player gets the same turn-start message naming the current player |
| RequestHandler.SwapWithPlayerNotifies | server/src/request_handler.rs:615-652 | a swap succeeds exactly when the round's swap does; on success the regulator's answer holds the target's old hand, the target alone gets the regulator's old hand, the regulator gets no message and every other player learns only who swapped with whom |
| RequestHandler.EndTurnNotifies | server/src/request_handler.rs:693-769 | ending a turn succeeds exactly when the game's end of turn does; while the round goes on every player gets the turn-start message of the next player; entering the draft every player gets their own draft view; entering the results every player gets the same score list, one score per player |
| RequestHandler.StartGameViewsArePrivate | server/src/request_handler.rs:23-66 | starting succeeds exactly in a lobby of four to seven players; every player gets a start message with their own id and hand and their own draft view, where only the first player may see selectable or closed characters |
| RequestHandler.UseAbilityIsPrivate | server/src/request_handler.rs:68-135 | using an ability succeeds exactly for the current player of a round and sends no message to anyone else; the answer lists the fireable characters, the swap options or the divestable assets according to the character, and names the character otherwise |
| RequestHandler.StartGameHandled | server/src/request_handler.rs:23-66 | `start_game` on a game value: the game's start, then each player's start message and draft view. `StartGameViewsPerPlayer` and `StartGameViewsArePrivate` state its answer |
| RequestHandler.DrawCardReply | server/src/request_handler.rs:169-193 | the answer to a draw: the drawn card and the two flags for the actor, the player and card kind for everyone else. `DrawCardIsAnonymous` states who learns what |
| RequestHandler.DrawCardHandled | server/src/request_handler.rs:162-194 | `draw_card` on a game value. `DrawCardIsAnonymous` states its outcome |
| RequestHandler.PutBackCardReply | server/src/request_handler.rs:203-227 | the answer to a give-back: the index and the two flags for the actor, the player and card kind for everyone else. `PutBackCardIsAnonymous` states who learns what |
| RequestHandler.PutBackCardHandled | server/src/request_handler.rs:196-228 | `put_back_card` on a game value. `PutBackCardIsAnonymous` states its outcome |
| RequestHandler.PlayCardReply | server/src/request_handler.rs:238-291 | the answer to a play: a bought asset with its market, or an issued liability, for the actor and for everyone else. `PlayCardIsPublic` states it |
| RequestHandler.PlayCardHandled | server/src/request_handler.rs:230-292 | `play_card` on a game value. `PlayCardIsPublic` states its outcome |
| RequestHandler.SelectCharacterReply | server/src/request_handler.rs:346-389 | the answer to a pick, from the phase it leads to: everyone's draft view, or the turn start for everyone; lobby and results are errors. `SelectCharacterViews` states it |
| RequestHandler.SelectCharacterHandled | server/src/request_handler.rs:339-392 | `select_character` on a game value. `SelectCharacterViews` states its outcome |
| RequestHandler.SwapWithPlayerReply | server/src/request_handler.rs:624-651 | the answer to a hand swap: the bystanders learn who swapped with whom, the target gets its new hand, the regulator its own. `SwapWithPlayerNotifies` states it |
| RequestHandler.SwapWithPlayerHandled | server/src/request_handler.rs:615-652 | `swap_with_player` on a game value. `SwapWithPlayerNotifies` states its outcome |
| RequestHandler.EndTurnReply | server/src/request_handler.rs:696-768 | the answer to the end of a turn, from the phase it leads to: the next turn start, each player's draft view, or everyone's scores. `EndTurnNotifies` states it |
| RequestHandler.EndTurnHandled | server/src/request_handler.rs:693-769 | `end_turn` on a game value. `EndTurnNotifies` states its outcome |
| RequestHandler.AbilityReply | server/src/request_handler.rs:71-134 | the answer to `use_ability` by character: the fireable characters, the swap options, the divest options or the bare character, with no message to anyone else. `UseAbilityIsPrivate` states it |
| RequestHandler.UseAbilityHandled | server/src/request_handler.rs:68-135 | `use_ability` on a game value. `UseAbilityIsPrivate` states its outcome |
| RequestHandler.HandleStartGame | server/src/request_handler.rs:23-66 | the in-place handler leaves the game and returns the answer `StartGameHandled` gives |
| RequestHandler.HandleDrawCard | server/src/request_handler.rs:162-194 | the in-place handler leaves the game and returns the answer `DrawCardHandled` gives |
| RequestHandler.HandlePutBackCard | server/src/request_handler.rs:196-228 | the in-place handler leaves the game and returns the answer `PutBackCardHandled` gives |
| RequestHandler.HandlePlayCard | server/src/request_handler.rs:230-292 | the in-place handler leaves the game and returns the answer `PlayCardHandled` gives |
| RequestHandler.HandleSelectCharacter | server/src/request_handler.rs:339-392 | the in-place handler leaves the game and returns the answer `SelectCharacterHandled` gives |
| RequestHandler.HandleSwapWithPlayer | server/src/request_handler.rs:615-652 | the in-place handler leaves the game and returns the answer `SwapWithPlayerHandled` gives |
| RequestHandler.HandleEndTurn | server/src/request_handler.rs:693-769 | the in-place handler leaves the game and returns the answer `EndTurnHandled` gives |

## Left out

- I/O and environment. `GameData::new` reads the card catalogue from JSON, and `Lobby::start_game` panics on a bad path. `start_game` reads `ASSETS_DIR`. The model takes the loaded card lists as an input (`DeckList`).
- Randomness. Everything behind the `shuffle` feature is left out: deck shuffling and the CEO re-insertion in `ObtainingCharacters::new`. The model is the unshuffled build.
- Floating-point scoring. `ResultsPlayer::score`, `fcf` and `color_value` compute with `f64`. `Results.PlayerScores` and the end-of-turn handler take the score as a function parameter, so the model states which players get which score, not its value.
- Concurrency and networking. The websocket server, the room registry with its mutex and broadcast channels, and the delivery order of notifications are not part of this model.
- The root prototype crate (`src/…`) is superseded and is not part of this model.
- Serialisation glue (`game/src/utility.rs`, `wasm-responses`) and the response enums in `responses/src/lib.rs` are only declarations. The response datatypes in `RequestHandler` follow what `request_handler.rs` builds.
- Integer width. Cash, values and counters are unbounded naturals. The `u8` sums can wrap or panic in the source: the funds and gold owed in `game/src/game/banker_target.rs`, the totals in `pay_banker` and `go_bankrupt_for_banker`, the results totals, and the turn-cash addition of the older `start_turn`. The model does not model that overflow. The `as u8` casts of indices and counts in error values, ids and the older turn cash are modelled as arithmetic modulo 256 (`Errors.AsU8`). Other casts are not wrapped: `removed_card_len as u8` in `swap_with_deck` (game/src/player/round.rs:262) is added to the bonus draws unwrapped, and the casts of positive market values to `u8` keep their value.
- PlayerRules.MarketValue: computes with unbounded integers. The source's `gold_value as i8 + silver_value as i8 * mul` (game/src/player/mod.rs:58) wraps for values above 127, and the model does not model that wrap.
- Lobby ordering. `init_players` sorts the lobby by id. The lobby's invariant keeps ids equal to positions, so the model's lobby is already in that order and the sort is the identity.
- `mem::take` in `player_select_character` and `end_player_turn` empties the old phase before it is replaced. Nothing reads the emptied phase afterwards, so the model leaves the old value in place and builds the next phase from it.
- `Rounds.Round.RefreshMarket` requires a market card somewhere in the market deck (`HasMarket`). Without one, the source's refresh loop would never end. `Games.Playable` states the same demand on the loaded cards for `start_game`.
- `MarketRules.MakeHigher` and `MarketRules.MakeLower` return the new condition rather than assigning `*self`, because the market condition is a plain value everywhere it is used.
- The older snapshot's `GameState::start_game`, `Deck`, `Lobby` and `PlayerInfo` are the same code as the newer ones and are not duplicated. Where the older code is identical, the rows above cite it beside the newer files.
- The multi-round scenario tests in `game/src/game.rs` are covered by lemmas about a single round. The test that plays rounds until the game ends is not replayed.
- Request handlers that are outside the modelled set: `get_bonus_cash`, `redeem_liability`, `fire_character`, `terminate_credit_character`, `swap_with_deck`, `divest_asset`, `minus_into_plus`, `silver_into_gold`, `change_asset_color` and `confirm_asset_ability`. The game operations they call are modelled and proved in the round and results modules; only their notification maps are not.
- The banker-target request handlers: `select_divest_asset`, `unselect_divest_asset`, `select_issue_liability`, `unselect_issue_liability`, `create_selected_cards_response` and `pay_banker`. They go through a `GameState::BankerTarget` phase that the game crate does not declare. The player and round rules they rely on are modelled in `BankerTargetPlayers` and `BankerTargetRounds`.
- RequestHandler.EndTurnNotifies: does not model the `PlayerTargetedByBanker` note that `end_turn` appends when `round.banker_target()` names the next character, because the round has no such method.
- RequestHandler.UseAbilityIsPrivate: the `perk` text that each ability answer carries is a fixed description string and is not modelled.
- RoundRules.AfterPurchase: its own contract keeps only the chairman and the number of players. `RoundRules.AfterPurchaseEffects` and `RoundRules.PlayCardEffects` state the effect on the buyer, on everyone else and on the market.
- RoundRules.OthersInfo: its own contract bounds the length only. `RoundRules.OthersInfoSkipsSelf` states the contents.
- Results.ResultsOthersInfo: its own contract bounds the length only. `Results.ResultsOthersInfoSkipsSelf` states the contents.
- BankerTargetPlayers.BankerTargetPlayer.GoBankruptForBanker: as in the source, the error path (the player could have paid) still removes the sold assets and issued liabilities. It keeps the cash unchanged, so this is not an all-or-nothing operation; `BankruptcySettles` states exactly what changes.
- BankerTargetRounds.LiabilityFunds: as written, the entry into the banker's target phase counts a CFO's three smallest liabilities in the funds. A bankruptcy, as written, keeps whatever the running-maximum loop leaves (`BankruptIssued`), which is in general neither the three smallest nor the three largest. The model keeps both as written.
- BankerTargetPlayers.WentBankrupt: requires `BankruptcyFits`. Its part `BankruptDropsInRange` excludes the hands for which the running-maximum loop removes past the end of the list, where the source panics (`BankruptPanicsOnRisingLiabilities` shows one); the rest is the `u8` allowance that each issued liability decrements. The same requirement holds for `BankruptIssued`, `Liquidated`, `BankruptcySettles`, `LiquidatedParts` and `BankerTargetPlayers.BankerTargetPlayer.GoBankruptForBanker`.
- RoundPlayers.SwappedWithDeck: requires `SwapDoesNotPanic`, which excludes the index equal to the hand length once the bound test as written has let it through: there the source's `Vec::remove` panics. The same requirement holds for `RoundPlayers.RoundPlayer.SwapWithDeck`, `RoundRules.SwappedWithDeckInRound` and `Rounds.Round.PlayerSwapWithDeck`.
- SelectingPhase.SelectingOthersInfo: its own contract bounds the length only. `SelectingPhase.SelectingOthersInfoSkipsSelf` states the contents.
- Lobbies.LobbyOthersInfo: its own contract bounds the length only. `Lobbies.LobbyOthersInfoSkipsSelf` states the contents.
- Market images. `game/src/cards.rs:292-293` sets an `image_front_url` and an `image_back_url` on each market card, but the `Market` declared at `game/src/game/mod.rs:90-112` has no such fields. `Vocabulary.Market` follows the declaration and drops both URLs; no rule reads them. Assets and liabilities keep both of their image URLs.
- BankerTargetPlayers.PaidBanker: as in the source, the selected liabilities leave the hand and use an allowance, but are not added to the player's liabilities.
- BankerTargetPlayers.PaidBanker: requires `PaymentDoesNotPanic`. When the cash plus the chosen values cover the amount, the chosen positions must exist in the assets and the hand, each chosen hand card must be a liability, and the issue allowance must cover them. Otherwise the source panics: at the `unwrap` of `game/src/player/banker_target.rs:196`, at a `remove` (lines 215 and 226), or at the `u8` underflow of `liabilities_to_play -= 1` (line 227). When the cash falls short nothing is required, and the answer is `NotEnoughCash` whatever was chosen. The same requirement holds for `BankerTargetPlayers.BankerTargetPlayer.PayBanker` and `BankerTargetPlayers.BankerTargetPlayer.Pay`, and behind the round's own checks for `BankerTargetRounds.PaidBankerInRound` and `BankerTargetRounds.BankerTargetRound.PlayerPayBanker`.

## Findings

| source | as written | input that shows it | evidently intended | confidence | as-written member | corrected member |
|---|---|---|---|---|---|---|
| game/src/player/round.rs:237-239 | the largest index is accepted when it is `<=` the hand's length | a regulator's hand of n cards and the indices `[n]`: the test passes and the removal at position n panics | accept indices strictly below the hand's length | not executed | RoundPlayers.SwapBoundOffByOne | RoundPlayers.SwapChecksAgree |
| game/src/player.rs:308 | the same `<=` bound in the older snapshot | the same input | the same strict bound | not executed | RoundPlayers.SwapBoundOffByOne | RoundPlayers.SwapChecksAgree |
| game/src/player/banker_target.rs:73-89 | a CFO's liabilities are numbered by `enumerate` after `filter`, so the recorded `card_idx` is the rank among liabilities, not the position in the hand | the hand [asset, liability]: position 0 is recorded, and the removal later takes the asset | record each liability's position in the hand | not executed | BankerTargetPlayers.BankruptRemovesWrongCard | BankerTargetPlayers.HandLiabilities |
| game/src/player/banker_target.rs:100-112 | the index to drop counts how often a new running maximum appears, so it neither points at the smallest value nor stays in range | liabilities of values 1, 2, 3, 4: the index is 4, past the end, and `Vec::remove` panics; values 1, 5, 5, 5: a liability worth 5 is dropped | drop the liability of least value until three remain | not executed | BankerTargetPlayers.BankruptPanicsOnRisingLiabilities | BankerTargetPlayers.KeepLargestThreeKeepsLargest |
| game/src/player/results.rs:160-162 | the record of a silver toggle stores the asset's silver after the toggle, which is 0 (the same at lines 126-129) | toggling the same asset twice: the second call restores silver 0 and takes 0 from the gold, so the silver is lost | record the silver the asset had before, so that a second toggle undoes the first | not executed | ResultsPlayers.SilverToggleDoesNotUndo | ResultsPlayers.SilverToggleRestoringUndoes |
| game/src/player/results.rs:201-212 | the first colour toggle turns silver into gold and leaves the colour unchanged | an asset with no earlier colour toggle and any colour other than its own: after the call its colour is unchanged | give the asset the chosen colour | not executed | ResultsPlayers.FirstColorToggleKeepsColor | ResultsPlayers.ToggledColorRestoring |
| game/src/player/results.rs:197 | undoing a colour toggle clears the silver-into-gold record and keeps the colour record | a colour toggle followed by a toggle of the same asset: the colour record still names the asset, and an earlier silver record is gone | clear the colour record | not executed | ResultsPlayers.ColorUndoClearsWrongRecord | ResultsPlayers.ColorToggleRestoringUndoes |
