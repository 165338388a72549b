/**
 * The missions page (components/Missions.tsx): each mission's progress,
 * its progress bar, whether it is completed, whether it was claimed and
 * whether its claim button is enabled.
 */
module Missions {
  import opened Types
  import opened History
  import Economy

  /** `getProgress`: draws so far, legendary drops so far, or 0 for daily draws, which nothing counts. */
  function Progress(history: seq<HistoryItem>, m: Mission): (current: nat)
    ensures m.kind == TotalSpins ==> current == |history|
    ensures m.kind == LegendaryCount ==> current == CountRarity(history, Legendary)
    ensures m.kind == DailySpins ==> current == 0
    ensures current <= |history|
  {
    match m.kind
    case TotalSpins => |history|
    case LegendaryCount => CountRarity(history, Legendary)
    case DailySpins => 0
  }

  /** The width of the progress bar, in percent; `NotANumber` is what `0 / 0` gives. */
  datatype Percent = Value(value: real) | NotANumber

  /** `Math.min(100, (current / target) * 100)` in exact arithmetic. */
  function ProgressPercent(current: nat, target: int): (p: Percent)
    ensures p.NotANumber? <==> current == 0 && target == 0
    ensures p.Value? ==> p.value <= 100.0
    ensures target > 0 ==> p.Value? && 0.0 <= p.value
    ensures target > 0 && current >= target ==> p == Value(100.0)
    ensures target > 0 && current < target ==> p.value < 100.0
  {
    if target == 0 then
      if current == 0 then NotANumber else Value(100.0)
    else
      var ratio := (current as real / target as real) * 100.0;
      if ratio < 100.0 then Value(ratio) else Value(100.0)
  }

  /** `current >= task.target` */
  predicate IsCompleted(history: seq<HistoryItem>, m: Mission)
  {
    Progress(history, m) >= m.target
  }

  /** `claimedIds.includes(task.id)` */
  predicate IsClaimed(claimedIds: seq<int>, m: Mission)
  {
    m.id in claimedIds
  }

  /** The claim button is enabled (`disabled={!isCompleted || isClaimed}` is false). */
  function CanClaim(history: seq<HistoryItem>, claimedIds: seq<int>, m: Mission): (enabled: bool)
    ensures enabled <==> Progress(history, m) >= m.target && m.id !in claimedIds
  {
    !(!IsCompleted(history, m) || IsClaimed(claimedIds, m))
  }

  /** For a positive target the bar is full exactly when the mission is completed. */
  lemma FullBarIffCompleted(history: seq<HistoryItem>, m: Mission)
    requires m.target > 0
    ensures ProgressPercent(Progress(history, m), m.target) == Value(100.0) <==> IsCompleted(history, m)
  {
  }

  /** A daily-draw mission with a positive target can never be completed, so never claimed. */
  lemma DailyNeverCompleted(history: seq<HistoryItem>, claimedIds: seq<int>, m: Mission)
    requires m.kind == DailySpins && m.target >= 1
    ensures !IsCompleted(history, m) && !CanClaim(history, claimedIds, m)
  {
  }

  /** Once claimed, a mission's button is disabled for good; the claim paid its reward exactly once. */
  lemma ClaimDisablesButton(history: seq<HistoryItem>, user: UserState, m: Mission)
    requires CanClaim(history, user.claimedMissionIds, m)
    ensures var u := Economy.ClaimMission(user, m);
            && !CanClaim(history, u.claimedMissionIds, m)
            && u.coins == user.coins + m.rewardCoins
  {
  }

  /** Drawing more never undoes a completed draw-count or legendary mission. */
  lemma {:induction false} CompletionIsStable(history: seq<HistoryItem>, newer: seq<HistoryItem>, m: Mission)
    requires IsCompleted(history, m)
    ensures IsCompleted(newer + history, m)
  {
    CountConcat(newer, history, Legendary);
  }
}
