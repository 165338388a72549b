/**
 * The draw machine of App.tsx as an object: the component's state
 * (`prizes`, `gameState`, `activeIndex`, `results`, `isBatchSpin`,
 * `history`, `userState`, `pityCounter`) and its refs (`stepsRef`,
 * `targetIndexRef`) are fields, and `handleSpin`, one `spinLoop` tick,
 * `finishSpin` and `resetGame` are methods. The states go
 * Idle -> Spinning -> Result -> Idle.
 *
 * `spinLoop` and `finishSpin` run as closures of the render in which the
 * draw button was clicked, so they read that render's `results` and
 * `isBatchSpin`, not the values `handleSpin` has just queued. At a click the
 * machine is Idle, and in Idle `results` is always empty. The fields
 * `spinCount` and `staleResults` hold what those closures captured.
 * `FinishSpinAsWritten` reconciles the captured (empty) results, which is
 * what the application does; `FinishSpin` takes the draw's results, which is
 * what it evidently intends, and the tick loop uses `FinishSpin`.
 */
module Game {
  import opened Types
  import opened Selector
  import opened Draw
  import Economy

  class Engine {
    var prizes: seq<Prize>
    var pityThreshold: int
    var gameState: GameState
    var activeIndex: nat
    var results: seq<Prize>
    var isBatchSpin: bool
    var history: seq<HistoryItem>
    var userState: UserState
    var pityCounter: int
    /** `stepsRef`: the ticks left in the running spin. */
    var steps: int
    /** `targetIndexRef`: the slot the running spin lands on. */
    var targetIndex: nat
    /** `Math.min(prizes.length, 9)` as the running spin's `spinLoop` closure computes it. */
    var spinCount: nat
    /** `results` as the running spin's `finishSpin` closure sees it. */
    var staleResults: seq<Prize>

    ghost predicate Valid()
      reads this
    {
      && gameState != Stopping
      && (gameState == Idle ==> results == [])
      && (gameState == Spinning ==>
            && steps >= 1 && spinCount > 0 && results != [] && staleResults == []
            && (!isBatchSpin ==> Rotate(activeIndex, steps as nat, spinCount) == targetIndex))
      && (gameState == Result && !isBatchSpin ==> activeIndex == targetIndex)
    }

    constructor (prizes: seq<Prize>, pityThreshold: int, history: seq<HistoryItem>, userState: UserState, pityCounter: int)
      ensures Valid()
      ensures gameState == Idle && activeIndex == 0 && results == []
      ensures this.prizes == prizes && this.pityThreshold == pityThreshold
      ensures this.history == history && this.userState == userState && this.pityCounter == pityCounter
    {
      this.prizes := prizes;
      this.pityThreshold := pityThreshold;
      this.history := history;
      this.userState := userState;
      this.pityCounter := pityCounter;
      gameState := Idle;
      activeIndex := 0;
      results := [];
      isBatchSpin := false;
      steps := 0;
      targetIndex := 0;
      spinCount := 0;
      staleResults := [];
    }

    /**
     * `handleSpin(isBatch)`. Refused (nothing changes) unless the machine is
     * Idle and the pool is non-empty. Otherwise it draws from the first nine
     * prizes, all draws seeing the guaranteed-rare flag as it was before the
     * draw, clears that flag, commits the pity counter the draws leave, sets
     * the step budget and runs the first tick.
     */
    method HandleSpin(isBatch: bool, rolls: seq<Roll>) returns (started: bool)
      requires Valid()
      requires |rolls| == if isBatch then BATCH_SIZE else 1
      modifies this
      ensures Valid()
      ensures started <==> old(gameState) == Idle && old(prizes) != []
      ensures !started ==> unchanged(this)
      ensures started ==>
                var pool := ActivePool(old(prizes));
                var o := Draws(pool, pityThreshold, old(pityCounter), old(userState).activeBuffs.guaranteedRare, rolls);
                && gameState == Spinning && isBatchSpin == isBatch
                && results == o.results && pityCounter == o.pity
                && userState == old(userState).(activeBuffs := old(userState).activeBuffs.(guaranteedRare := false))
                && spinCount == |pool| && activeIndex == (old(activeIndex) + 1) % |pool|
                && steps == (if isBatch then BATCH_STEPS else SingleStepBudget(old(activeIndex), targetIndex, |pool|)) - 1
      ensures started && !isBatch ==>
                targetIndex == Choose(ActivePool(old(prizes)), pityThreshold, old(pityCounter),
                                      old(userState).activeBuffs.guaranteedRare, rolls[0]).index
      ensures prizes == old(prizes) && pityThreshold == old(pityThreshold) && history == old(history)
    {
      if gameState != Idle || |ActivePool(prizes)| == 0 {
        return false;
      }
      Start(isBatch, rolls);
      return true;
    }

    /** The accepted path of `handleSpin`, from Idle with a non-empty pool. */
    method Start(isBatch: bool, rolls: seq<Roll>)
      requires Valid() && gameState == Idle && prizes != []
      requires |rolls| == if isBatch then BATCH_SIZE else 1
      modifies this
      ensures Valid()
      ensures var pool := ActivePool(old(prizes));
              var o := Draws(pool, pityThreshold, old(pityCounter), old(userState).activeBuffs.guaranteedRare, rolls);
              && gameState == Spinning && isBatchSpin == isBatch
              && results == o.results && pityCounter == o.pity
              && userState == old(userState).(activeBuffs := old(userState).activeBuffs.(guaranteedRare := false))
              && spinCount == |pool| && activeIndex == (old(activeIndex) + 1) % |pool|
              && steps == (if isBatch then BATCH_STEPS else SingleStepBudget(old(activeIndex), targetIndex, |pool|)) - 1
      ensures !isBatch ==>
                targetIndex == Choose(ActivePool(old(prizes)), pityThreshold, old(pityCounter),
                                      old(userState).activeBuffs.guaranteedRare, rolls[0]).index
      ensures prizes == old(prizes) && pityThreshold == old(pityThreshold) && history == old(history)
    {
      if isBatch {
        StartBatch(rolls);
      } else {
        StartSingle(rolls);
      }
    }

    /** `handleSpin(true)` from Idle with a non-empty pool. */
    method StartBatch(rolls: seq<Roll>)
      requires Valid() && gameState == Idle && prizes != []
      requires |rolls| == BATCH_SIZE
      modifies this
      ensures Valid()
      ensures var pool := ActivePool(old(prizes));
              var o := Draws(pool, pityThreshold, old(pityCounter), old(userState).activeBuffs.guaranteedRare, rolls);
              && gameState == Spinning && isBatchSpin
              && results == o.results && pityCounter == o.pity
              && userState == old(userState).(activeBuffs := old(userState).activeBuffs.(guaranteedRare := false))
              && spinCount == |pool| && activeIndex == (old(activeIndex) + 1) % |pool|
              && steps == BATCH_STEPS - 1
      ensures prizes == old(prizes) && pityThreshold == old(pityThreshold) && history == old(history)
    {
      var pool := ActivePool(prizes);
      var hadRareBuff := userState.activeBuffs.guaranteedRare;
      Launch(true, pool);
      DrawBatch(pool, hadRareBuff, rolls);
      Tick();
    }

    /** `handleSpin(false)` from Idle with a non-empty pool. */
    method StartSingle(rolls: seq<Roll>)
      requires Valid() && gameState == Idle && prizes != []
      requires |rolls| == 1
      modifies this
      ensures Valid()
      ensures var pool := ActivePool(old(prizes));
              var o := Draws(pool, pityThreshold, old(pityCounter), old(userState).activeBuffs.guaranteedRare, rolls);
              && gameState == Spinning && !isBatchSpin
              && results == o.results && pityCounter == o.pity
              && userState == old(userState).(activeBuffs := old(userState).activeBuffs.(guaranteedRare := false))
              && spinCount == |pool| && activeIndex == (old(activeIndex) + 1) % |pool|
              && steps == SingleStepBudget(old(activeIndex), targetIndex, |pool|) - 1
      ensures targetIndex == Choose(ActivePool(old(prizes)), pityThreshold, old(pityCounter),
                                    old(userState).activeBuffs.guaranteedRare, rolls[0]).index
      ensures prizes == old(prizes) && pityThreshold == old(pityThreshold) && history == old(history)
    {
      var pool := ActivePool(prizes);
      var hadRareBuff := userState.activeBuffs.guaranteedRare;
      Launch(false, pool);
      DrawSingle(pool, hadRareBuff, rolls[0]);
      assert rolls == [rolls[0]];
      Tick();
    }

    /** The bookkeeping `handleSpin` does before drawing: enter Spinning, record the batch flag, clear the buff. */
    method Launch(isBatch: bool, pool: seq<Prize>)
      requires gameState == Idle && results == [] && pool == ActivePool(prizes)
      modifies this`gameState, this`isBatchSpin, this`userState, this`staleResults, this`spinCount
      ensures gameState == Spinning && isBatchSpin == isBatch && staleResults == [] && spinCount == |pool|
      ensures userState == old(userState).(activeBuffs := old(userState).activeBuffs.(guaranteedRare := false))
    {
      staleResults := results;
      gameState := Spinning;
      isBatchSpin := isBatch;
      userState := userState.(activeBuffs := userState.activeBuffs.(guaranteedRare := false));
      spinCount := |pool|;
    }

    /**
     * The batch branch of `handleSpin`: ten draws threading a local pity
     * counter, committing only its final value; a fixed budget of 20 steps.
     */
    method DrawBatch(pool: seq<Prize>, hadRareBuff: bool, rolls: seq<Roll>)
      requires |pool| > 0 && |rolls| == BATCH_SIZE
      modifies this`results, this`pityCounter, this`steps, this`targetIndex
      ensures Outcome(results, pityCounter) == Draws(pool, pityThreshold, old(pityCounter), hadRareBuff, rolls)
      ensures steps == BATCH_STEPS && targetIndex == BATCH_TARGET
    {
      var batchResults, tempPity := BatchDraw(pool, pityThreshold, pityCounter, hadRareBuff, rolls);
      pityCounter := tempPity;
      results := batchResults;
      steps := BATCH_STEPS;
      targetIndex := BATCH_TARGET;
    }

    /**
     * The single branch of `handleSpin`: one draw, the pity counter reset or
     * incremented, and a step budget that lands on the drawn slot.
     */
    method DrawSingle(pool: seq<Prize>, hadRareBuff: bool, roll: Roll)
      requires |pool| > 0
      modifies this`results, this`pityCounter, this`steps, this`targetIndex
      ensures Outcome(results, pityCounter) == Draws(pool, pityThreshold, old(pityCounter), hadRareBuff, [roll])
      ensures targetIndex == Choose(pool, pityThreshold, old(pityCounter), hadRareBuff, roll).index
      ensures steps == SingleStepBudget(activeIndex, targetIndex, |pool|) && steps >= 3
      ensures Rotate(activeIndex, steps as nat, |pool|) == targetIndex
    {
      var s := GetWeightedRandomPrize(pool, pityThreshold, pityCounter, hadRareBuff, roll);
      DrawsOne(pool, pityThreshold, pityCounter, hadRareBuff, roll);
      targetIndex := s.index;
      if s.prize.rarity == Legendary {
        pityCounter := 0;
      } else {
        pityCounter := pityCounter + 1;
      }
      Landing(activeIndex, targetIndex, |pool|);
      steps := SingleStepBudget(activeIndex, targetIndex, |pool|);
      results := [s.prize];
    }

    /**
     * One `spinLoop` tick while more than one step is left: the visible slot
     * advances by one and the step counter drops by one.
     */
    method Tick()
      requires Valid() && gameState == Spinning && steps > 1
      modifies this`activeIndex, this`steps
      ensures Valid() && gameState == Spinning
      ensures activeIndex == (old(activeIndex) + 1) % spinCount
      ensures steps == old(steps) - 1
    {
      activeIndex := (activeIndex + 1) % spinCount;
      steps := steps - 1;
    }

    /**
     * The last `spinLoop` tick: the slot advances, the counter reaches zero
     * and `finishSpin` runs. `ids(j)` and `now` are the fresh entry id and
     * the clock reading of `finishSpin`.
     */
    method LastTick(now: int, ids: nat -> string)
      requires Valid() && gameState == Spinning && steps == 1
      modifies this`activeIndex, this`steps, this`gameState, this`history, this`userState
      ensures Valid() && gameState == Result
      ensures activeIndex == (old(activeIndex) + 1) % old(spinCount) && steps == 0
      ensures !isBatchSpin ==> activeIndex == targetIndex
      ensures var c := Reconcile(old(history), old(userState), results, now, ids);
              history == c.history && userState == c.user
      ensures results == old(results) && pityCounter == old(pityCounter) && prizes == old(prizes)
    {
      activeIndex := (activeIndex + 1) % spinCount;
      steps := steps - 1;
      FinishSpin(now, ids);
    }

    /**
     * `finishSpin` as evidently intended: enter Result, prepend one history
     * entry per drawn prize and credit ten coins per drawn prize.
     */
    method FinishSpin(now: int, ids: nat -> string)
      requires gameState == Spinning
      requires !isBatchSpin ==> activeIndex == targetIndex
      requires results != []
      modifies this`gameState, this`history, this`userState
      ensures gameState == Result
      ensures var c := Reconcile(old(history), old(userState), results, now, ids);
              history == c.history && userState == c.user
      ensures userState.coins > old(userState).coins
    {
      gameState := Result;
      var c := Reconcile(history, userState, results, now, ids);
      history := c.history;
      userState := c.user;
    }

    /**
     * `finishSpin` as written: it reconciles the `results` its closure
     * captured at the click, which are always empty, so the draw adds no
     * history entry and credits no coin.
     */
    method FinishSpinAsWritten(now: int, ids: nat -> string)
      requires Valid() && gameState == Spinning
      modifies this`gameState, this`history, this`userState
      ensures gameState == Result && results == old(results) && results != []
      ensures history == old(history) && userState == old(userState)
    {
      gameState := Result;
      var c := Reconcile(history, userState, staleResults, now, ids);
      history := c.history;
      userState := c.user;
    }

    /**
     * The timer recursion of `spinLoop` as a loop over ticks: the spin runs
     * for exactly the remaining step budget, ends in Result, and a single
     * draw shows its target slot.
     */
    method RunSpin(now: int, ids: nat -> string) returns (ticks: nat)
      requires Valid() && gameState == Spinning
      modifies this`activeIndex, this`steps, this`gameState, this`history, this`userState
      ensures Valid() && gameState == Result
      ensures ticks == old(steps)
      ensures !isBatchSpin ==> activeIndex == targetIndex
      ensures results == old(results) && pityCounter == old(pityCounter)
      ensures var c := Reconcile(old(history), old(userState), results, now, ids);
              history == c.history && userState == c.user
    {
      ticks := 0;
      while steps > 1
        invariant Valid() && gameState == Spinning
        invariant ticks + steps == old(steps)
        invariant results == old(results) && pityCounter == old(pityCounter)
        invariant history == old(history) && userState == old(userState)
        decreases steps
      {
        Tick();
        ticks := ticks + 1;
      }
      LastTick(now, ids);
      ticks := ticks + 1;
    }

    /**
     * A single-draw click followed by the whole spin. A refused click changes
     * nothing. An accepted one ends in Result on the slot of the drawn
     * prize, with the pity counter moved on by that draw, the buff cleared,
     * the prize's entry at the head of the history and ten coins credited
     * (as `FinishSpin` intends). The prize list and threshold are kept.
     */
    method SingleDrawToResult(roll: Roll, now: int, ids: nat -> string) returns (started: bool)
      requires Valid()
      modifies this
      ensures Valid()
      ensures started <==> old(gameState) == Idle && old(prizes) != []
      ensures !started ==> unchanged(this)
      ensures prizes == old(prizes) && pityThreshold == old(pityThreshold)
      ensures started ==>
                var s := Choose(ActivePool(old(prizes)), old(pityThreshold), old(pityCounter),
                                old(userState).activeBuffs.guaranteedRare, roll);
                var cleared := old(userState).(activeBuffs := old(userState).activeBuffs.(guaranteedRare := false));
                var c := Reconcile(old(history), cleared, [s.prize], now, ids);
                && gameState == Result && !isBatchSpin && results == [s.prize]
                && activeIndex == s.index && targetIndex == s.index
                && pityCounter == NextPity(old(pityCounter), s.prize)
                && history == c.history && userState == c.user
                && userState.coins == old(userState).coins + COINS_PER_DRAW
                && |history| == |old(history)| + 1 && history[1..] == old(history)
                && history[0].prizeName == s.prize.name && history[0].rarity == s.prize.rarity
    {
      started := HandleSpin(false, [roll]);
      if started {
        DrawsOne(ActivePool(prizes), pityThreshold, old(pityCounter), old(userState).activeBuffs.guaranteedRare, roll);
        var _ := RunSpin(now, ids);
      }
    }

    /** `resetGame`: closing the result returns the machine to Idle with no results. */
    method ResetGame()
      requires Valid()
      modifies this`results, this`gameState
      ensures Valid() && gameState == Idle && results == []
    {
      results := [];
      gameState := Idle;
    }

    /** `handleClaimMission` */
    method HandleClaimMission(m: Mission)
      modifies this`userState
      ensures userState == Economy.ClaimMission(old(userState), m)
    {
      userState := Economy.ClaimMission(userState, m);
    }

    /** `handleBuyShopItem` */
    method HandleBuyShopItem(item: ShopItem)
      modifies this`userState, this`pityCounter
      ensures Economy.Purchase(userState, pityCounter) == Economy.BuyShopItem(old(userState), old(pityCounter), item)
    {
      var p := Economy.BuyShopItem(userState, pityCounter, item);
      userState := p.user;
      pityCounter := p.pity;
    }
  }
}
