// The older single-file snapshot of the player records (game/src/player.rs).
// Its round player is the newer `RoundPlayer` without the bonus-cash,
// first-to-six and is-human fields, which none of its operations read, and
// every operation it shares with the newer file is the same code. What
// differs is the turn cash: the older player is paid at the start of its
// turn according to its assets of its character's colour and the market.
module LegacyPlayers {
  import opened Vocabulary
  import opened Errors
  import opened MarketRules
  import opened PlayerRules
  import opened PlayerRecords
  import opened RoundPlayers

  /**
   * The older `turn_cash(&market)`: the start cash plus the asset bonus
   * weighted by the market bonus plus one, cast to `u8`. A rising market
   * doubles the asset bonus, a neutral one pays it once, and a falling one
   * pays only the start cash; colourless characters get the start cash.
   */
  function OldTurnCash(p: RoundPlayerData, market: Market): (c: U8)
    ensures ColorOf(p.character).None? ==> c == 1
    ensures ColorOf(p.character).Some? ==> match ColorCondition(market, ColorOf(p.character).value)
      case Plus => c == AsU8(1 + 2 * AssetBonus(p))
      case Zero => c == AsU8(1 + AssetBonus(p))
      case Minus => c == 1
  {
    var weight: nat := MarketConditionBonus(p, market) + 1;
    AsU8(TurnStartCash(p) + AssetBonus(p) * weight)
  }

  /**
   * Below the `u8` wrap-around the older turn cash is never less than the
   * newer flat one coin, and it is more exactly when the character owns
   * assets of its colour and that colour's market is not falling.
   */
  lemma OldTurnCashAtLeastNewer(p: RoundPlayerData, market: Market)
    requires 1 + 2 * |p.assets| < 256
    ensures OldTurnCash(p, market) >= TurnCash(p)
    ensures OldTurnCash(p, market) > TurnCash(p) <==>
      AssetBonus(p) > 0 && ColorCondition(market, ColorOf(p.character).value) != Minus
  {
  }

  /** The older turn cash does not depend on the cash the player holds. */
  lemma OldTurnCashIgnoresCash(p: RoundPlayerData, c: nat, market: Market)
    ensures OldTurnCash(p.(cash := c), market) == OldTurnCash(p, market)
  {
  }

  /**
   * The older `start_turn(&market)`: the player gets its turn cash and
   * nothing else changes.
   */
  function OldTurnStarted(p: RoundPlayerData, market: Market): (q: RoundPlayerData)
    ensures q.cash == p.cash + OldTurnCash(p, market)
    ensures q.(cash := p.cash) == p
  {
    p.(cash := p.cash + OldTurnCash(p, market))
  }

  /** Starting a turn keeps the player invariant. */
  lemma OldStartTurnKeepsPlayerInv(p: RoundPlayerData, market: Market)
    requires PlayerInv(p)
    ensures PlayerInv(OldTurnStarted(p, market))
  {
  }

  /** `start_turn(&market)` on a round player, in place. */
  method StartTurnWithMarket(p: RoundPlayer, market: Market)
    modifies p
    ensures p.Data() == OldTurnStarted(old(p.Data()), market)
  {
    p.cash := p.cash + OldTurnCash(p.Data(), market);
  }
}
