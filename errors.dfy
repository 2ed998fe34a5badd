// The error vocabulary of the game (game/src/errors.rs): one general
// `GameError` wrapping the action-specific errors. The banker-target and
// bonus-cash errors are used by the player and round code but are not
// declared in errors.rs; they are declared here with the variants that code
// uses.
module Errors {
  import opened Vocabulary

  datatype LobbyError = UsernameAlreadyTaken(name: string) | InvalidUsername

  datatype PlayCardError =
    | InvalidCardIndex(idx: U8)
    | ExceedsMaximumAssets
    | ExceedsMaximumLiabilities
    | CannotAffordAsset(cash: nat, cost: nat)

  datatype RedeemLiabilityError =
    | NotAllowedToRedeemLiability(character: Character)
    | RedeemExceedsMaximumLiabilities
    | InvalidLiabilityIndex(idx: U8)
    | NotEnoughCash(cash: nat, cost: nat)

  datatype GiveBackCardError = GiveBackInvalidCardIndex(idx: U8) | Unnecessary

  datatype FireCharacterError = FireInvalidCharacter | FireInvalidPlayerCharacter | AlreadyFiredThisTurn

  datatype TerminateCreditCharacterError =
    | TerminateInvalidCharacter
    | TerminateInvalidPlayerCharacter
    | TerminateAlreadyFiredThisTurn

  datatype SwapError = AlreadySwapedThisTurn | SwapInvalidPlayerCharacter | InvalidCardIdxs | InvalidTargetPlayer

  datatype DivestAssetError =
    | DivestInvalidCharacter
    | DivestInvalidPlayerCharacter
    | AlreadyDivestedThisTurn
    | CantDivestAssetType
    | DivestNotEnoughCash
    | InvalidCardIdx

  datatype DrawCardError = MaximumCardsDrawn(drawn: nat)

  datatype SelectingCharactersError =
    | NotPickingCharacters
    | AlreadySelectedCharacter(character: Character)
    | UnavailableCharacter
    | NotChairman

  datatype AssetAbilityError =
    | InvalidAbilityIndex(abilityIdx: nat)
    | PlayerDoesNotHaveAbility(powerup: AssetPowerup)
    | AlreadyConfirmedAssetIndex(idx: U8)

  datatype GetBonusCashError = AlreadyGottenBonusCashThisTurn | BonusInvalidCharacter

  datatype BankerTargetSelectError =
    | InvalidAssetId
    | AssetAlreadySelected
    | AssetValueToLow
    | AssetNotSelected
    | NotCFO
    | InvalidLiabilityId(idx: U8)
    | AlreadySelected3Liabilities
    | LiabilityAlreadySelected
    | LiabilityNotSelected

  datatype PayBankerError =
    | NoBankerPlayer
    | PayNotEnoughCash
    | NotRightCashAmount(expected: nat, got: nat)

  datatype GameError =
    | LobbyErr(lobby: LobbyError)
    | SelectingCharactersErr(selecting: SelectingCharactersError)
    | PlayCardErr(playCard: PlayCardError)
    | RedeemLiabilityErr(redeem: RedeemLiabilityError)
    | GiveBackCardErr(giveBack: GiveBackCardError)
    | DrawCardErr(drawCard: DrawCardError)
    | FireCharacterErr(fire: FireCharacterError)
    | TerminateCreditCharacterErr(terminate: TerminateCreditCharacterError)
    | SwapErr(swap: SwapError)
    | DivestAssetErr(divest: DivestAssetError)
    | CardAbilityErr(ability: AssetAbilityError)
    | GetBonusCashErr(bonus: GetBonusCashError)
    | BankerTargetSelectErr(select: BankerTargetSelectError)
    | PayBankerErr(pay: PayBankerError)
    | InvalidAssetIndex(assetIdx: U8)
    | InvalidPlayerCount(count: U8)
    | InvalidPlayerIndex(playerIdx: U8)
    | InvalidPlayerName(playerName: string)
    | PlayerMissingCharacter
    | NotPlayersTurn
    | PlayerShouldGiveBackCard
    | NotLobbyState
    | NotSelectingCharactersState
    | NotRoundState
    | NotResultsState
    | NotAvailableInLobbyState
    | NotAvailableInBankerTargetState
    | NotAvailableInResultsState

  /** `n as u8`: the low eight bits of a count or index. */
  function AsU8(n: nat): (b: U8)
    ensures n < 256 ==> b == n
    ensures (b - n) % 256 == 0
  {
    n % 256
  }
}
