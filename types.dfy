/**
 * The records of the lucky-drop application (types.ts): prizes, the game
 * states of the draw machine, history entries, the per-user economy state,
 * shop items, missions and the stored user profile.
 */
module Types {

  datatype Option<+T> = None | Some(value: T)

  /** `'common' | 'rare' | 'legendary'` */
  datatype Rarity = Common | Rare | Legendary

  /** A prize of the catalog. `weight` is a relative draw weight; 0 counts as 1 when drawing. */
  datatype Prize = Prize(
    id: string,
    name: string,
    image: string,
    rarity: Rarity,
    description: string,
    weight: int)

  /** The draw machine's states. `Stopping` is declared by the application but never entered. */
  datatype GameState = Idle | Spinning | Stopping | Result

  /** One recorded draw; `id` and `timestamp` are opaque fresh values. */
  datatype HistoryItem = HistoryItem(
    id: string,
    timestamp: int,
    prizeName: string,
    rarity: Rarity)

  datatype Buffs = Buffs(guaranteedRare: bool, pityBooster: bool)

  /** The user's economy: coin balance, claimed mission ids (in claim order) and one-shot buffs. */
  datatype UserState = UserState(
    coins: int,
    claimedMissionIds: seq<int>,
    activeBuffs: Buffs)

  /** What a stored user looks like; `bio` and `avatarSeed` are optional. */
  datatype UserProfile = UserProfile(
    username: string,
    password: string,
    createdAt: int,
    state: UserState,
    history: seq<HistoryItem>,
    pityCounter: int,
    bio: Option<string>,
    avatarSeed: Option<string>)

  /** `'guaranteedRare' | 'pityBoost' | 'themeUnlock' | 'none'` */
  datatype Effect = GuaranteedRare | PityBoost | ThemeUnlock | NoEffect

  datatype ShopItem = ShopItem(
    id: string,
    name: string,
    price: int,
    icon: string,
    desc: string,
    effect: Effect)

  /** `'totalSpins' | 'legendaryCount' | 'dailySpins'` (the field is `type` in the application). */
  datatype MissionKind = TotalSpins | LegendaryCount | DailySpins

  datatype Mission = Mission(
    id: int,
    title: string,
    desc: string,
    target: int,
    rewardCoins: int,
    kind: MissionKind)
}
