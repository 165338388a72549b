/**
 * The mission-claim and shop-purchase handlers of App.tsx
 * (`handleClaimMission`, `handleBuyShopItem`) as functions on the user's
 * economy state.
 */
module Economy {
  import opened Types

  /** How far a pity-boost purchase advances the pity counter. */
  const PITY_BOOST: int := 5

  /**
   * Claiming a mission: a mission already claimed changes nothing; otherwise
   * its reward is credited and its id appended to the claimed ids.
   */
  function ClaimMission(user: UserState, m: Mission): (u: UserState)
    ensures m.id in user.claimedMissionIds ==> u == user
    ensures m.id !in user.claimedMissionIds ==>
              && u.coins == user.coins + m.rewardCoins
              && u.claimedMissionIds == user.claimedMissionIds + [m.id]
              && u.activeBuffs == user.activeBuffs
    ensures m.id in u.claimedMissionIds
  {
    if m.id in user.claimedMissionIds then user
    else user.(coins := user.coins + m.rewardCoins, claimedMissionIds := user.claimedMissionIds + [m.id])
  }

  /** Claiming the same mission again pays nothing more. */
  lemma ClaimTwice(user: UserState, m: Mission)
    ensures ClaimMission(ClaimMission(user, m), m) == ClaimMission(user, m)
  {
  }

  /** The economy state and the pity counter after a purchase attempt. */
  datatype Purchase = Purchase(user: UserState, pity: int)

  /**
   * Buying a shop item: with fewer coins than the price nothing changes;
   * otherwise exactly the price is deducted (so the balance stays
   * non-negative) and only the item's own effect is applied: the
   * guaranteed-rare buff is set, or the pity counter advances by five.
   */
  function BuyShopItem(user: UserState, pity: int, item: ShopItem): (p: Purchase)
    ensures user.coins < item.price ==> p == Purchase(user, pity)
    ensures user.coins >= item.price ==>
              && p.user.coins == user.coins - item.price
              && p.user.coins >= 0
              && p.user.claimedMissionIds == user.claimedMissionIds
              && p.user.activeBuffs.guaranteedRare == (user.activeBuffs.guaranteedRare || item.effect == GuaranteedRare)
              && p.user.activeBuffs.pityBooster == user.activeBuffs.pityBooster
              && p.pity == pity + (if item.effect == PityBoost then PITY_BOOST else 0)
  {
    if user.coins < item.price then Purchase(user, pity)
    else
      var paid := user.(coins := user.coins - item.price);
      match item.effect
      case GuaranteedRare => Purchase(paid.(activeBuffs := paid.activeBuffs.(guaranteedRare := true)), pity)
      case PityBoost => Purchase(paid, pity + PITY_BOOST)
      case ThemeUnlock => Purchase(paid, pity)
      case NoEffect => Purchase(paid, pity)
  }
}
