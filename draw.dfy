/**
 * The draw orchestrator, the spin step budget and the result reconciler of
 * App.tsx (`handleSpin`, `spinLoop`, `finishSpin`), as functions and
 * loop methods over explicit values. The `Engine` class in game.dfy strings
 * them together into the application's state machine.
 */
module Draw {
  import opened Types
  import opened Selector
  import opened History
  import opened Arithmetic

  /** The machine shows at most nine slots. */
  const POOL_SLOTS: nat := 9
  /** A batch draw is ten selector calls. */
  const BATCH_SIZE: nat := 10
  /** `MAX_LOOPS`: full rotations before a single draw lands. */
  const MAX_LOOPS: nat := 3
  /** The fixed step budget of a batch spin. */
  const BATCH_STEPS: nat := 20
  /** The (decorative) target slot of a batch spin. */
  const BATCH_TARGET: nat := 4
  /** Coins credited per drawn prize. */
  const COINS_PER_DRAW: nat := 10

  /** `prizes.slice(0, 9)`: the first `min(9, |prizes|)` prizes. */
  function ActivePool(prizes: seq<Prize>): (pool: seq<Prize>)
    ensures |pool| == if |prizes| < POOL_SLOTS then |prizes| else POOL_SLOTS
    ensures pool == prizes[..|pool|]
  {
    if |prizes| <= POOL_SLOTS then prizes else prizes[..POOL_SLOTS]
  }

  /** The pity counter after drawing `prize`: a legendary resets it, anything else adds one. */
  function NextPity(pity: int, prize: Prize): int
  {
    if prize.rarity == Legendary then 0 else pity + 1
  }

  /** The prizes drawn so far, in draw order, and the locally threaded pity counter. */
  datatype Outcome = Outcome(results: seq<Prize>, pity: int)

  /**
   * One selector call per roll, in order, each seeing the pity counter the
   * previous draws left and the same guaranteed-rare flag.
   */
  function Draws(pool: seq<Prize>, threshold: int, pity: int, guaranteedRare: bool, rolls: seq<Roll>): (o: Outcome)
    requires |pool| > 0
    ensures |o.results| == |rolls|
    ensures forall j :: 0 <= j < |o.results| ==> o.results[j] in pool
    decreases |rolls|
  {
    if rolls == [] then Outcome([], pity)
    else
      var before := Draws(pool, threshold, pity, guaranteedRare, rolls[..|rolls| - 1]);
      var s := Choose(pool, threshold, before.pity, guaranteedRare, rolls[|rolls| - 1]);
      Outcome(before.results + [s.prize], NextPity(before.pity, s.prize))
  }

  /**
   * The batch loop of `handleSpin`: ten selector calls threading a local
   * `tempPity`; only the final value is handed back for committing.
   */
  method BatchDraw(pool: seq<Prize>, threshold: int, pity: int, guaranteedRare: bool, rolls: seq<Roll>)
    returns (results: seq<Prize>, finalPity: int)
    requires |pool| > 0 && |rolls| == BATCH_SIZE
    ensures |results| == BATCH_SIZE
    ensures Outcome(results, finalPity) == Draws(pool, threshold, pity, guaranteedRare, rolls)
  {
    results := [];
    var tempPity := pity;
    for i := 0 to BATCH_SIZE
      invariant Outcome(results, tempPity) == Draws(pool, threshold, pity, guaranteedRare, rolls[..i])
    {
      var s := GetWeightedRandomPrize(pool, threshold, tempPity, guaranteedRare, rolls[i]);
      DrawsStep(pool, threshold, pity, guaranteedRare, rolls, i);
      results := results + [s.prize];
      if s.prize.rarity == Legendary {
        tempPity := 0;
      } else {
        tempPity := tempPity + 1;
      }
    }
    assert rolls[..BATCH_SIZE] == rolls;
    finalPity := tempPity;
  }

  /** Extending the rolls by one more draws once more from the pity the earlier draws left. */
  lemma DrawsStep(pool: seq<Prize>, threshold: int, pity: int, guaranteedRare: bool, rolls: seq<Roll>, i: nat)
    requires |pool| > 0 && i < |rolls|
    ensures var before := Draws(pool, threshold, pity, guaranteedRare, rolls[..i]);
            var s := Choose(pool, threshold, before.pity, guaranteedRare, rolls[i]);
            Draws(pool, threshold, pity, guaranteedRare, rolls[..i + 1])
            == Outcome(before.results + [s.prize], NextPity(before.pity, s.prize))
  {
    assert rolls[..i + 1][..i] == rolls[..i];
  }

  /** A single draw is one selector call and one pity update. */
  lemma DrawsOne(pool: seq<Prize>, threshold: int, pity: int, guaranteedRare: bool, roll: Roll)
    requires |pool| > 0
    ensures var s := Choose(pool, threshold, pity, guaranteedRare, roll);
            Draws(pool, threshold, pity, guaranteedRare, [roll]) == Outcome([s.prize], NextPity(pity, s.prize))
  {
    assert [roll][..0] == [];
  }

  predicate HasLegendary(results: seq<Prize>)
  {
    exists j :: 0 <= j < |results| && results[j].rarity == Legendary
  }

  /** How many non-legendary prizes follow the last legendary one (all of them when there is none). */
  function TrailingNonLegendary(results: seq<Prize>): (n: nat)
    ensures n <= |results|
  {
    if results == [] || results[|results| - 1].rarity == Legendary then 0
    else 1 + TrailingNonLegendary(results[..|results| - 1])
  }

  lemma HasLegendaryAppend(results: seq<Prize>, p: Prize)
    ensures HasLegendary(results + [p]) <==> HasLegendary(results) || p.rarity == Legendary
  {
    var all := results + [p];
    if HasLegendary(results) {
      var j :| 0 <= j < |results| && results[j].rarity == Legendary;
      assert all[j] == results[j];
    }
    if p.rarity == Legendary {
      assert all[|results|] == p;
    }
    if HasLegendary(all) {
      var j :| 0 <= j < |all| && all[j].rarity == Legendary;
      if j < |results| {
        assert results[j] == all[j];
      }
    }
  }

  lemma TrailingAppend(results: seq<Prize>, p: Prize)
    ensures TrailingNonLegendary(results + [p])
            == if p.rarity == Legendary then 0 else 1 + TrailingNonLegendary(results)
  {
    assert (results + [p])[..|results|] == results;
  }

  /**
   * The committed pity counter after a sequence of draws: the number of
   * non-legendary draws after the last legendary one, or the previous counter
   * plus the number of draws when no legendary was drawn.
   */
  lemma {:induction false} FinalPity(pool: seq<Prize>, threshold: int, pity: int, guaranteedRare: bool, rolls: seq<Roll>)
    requires |pool| > 0
    ensures var o := Draws(pool, threshold, pity, guaranteedRare, rolls);
            o.pity == if HasLegendary(o.results) then TrailingNonLegendary(o.results) else pity + |rolls|
    decreases |rolls|
  {
    if rolls == [] {
      assert !HasLegendary([]);
    } else {
      var front := rolls[..|rolls| - 1];
      FinalPity(pool, threshold, pity, guaranteedRare, front);
      var before := Draws(pool, threshold, pity, guaranteedRare, front);
      var s := Choose(pool, threshold, before.pity, guaranteedRare, rolls[|rolls| - 1]);
      HasLegendaryAppend(before.results, s.prize);
      TrailingAppend(before.results, s.prize);
    }
  }

  /**
   * With pity on and a legendary in the pool, no draw leaves the counter at
   * or above the threshold: pity always fires in time.
   */
  lemma {:induction false} PityBelowThreshold(pool: seq<Prize>, threshold: int, pity: int, guaranteedRare: bool, rolls: seq<Roll>)
    requires |pool| > 0 && |rolls| > 0
    requires threshold > 0
    requires exists i :: 0 <= i < |pool| && pool[i].rarity == Legendary
    ensures Draws(pool, threshold, pity, guaranteedRare, rolls).pity < threshold
    decreases |rolls|
  {
    if |rolls| > 1 {
      PityBelowThreshold(pool, threshold, pity, guaranteedRare, rolls[..|rolls| - 1]);
    }
  }

  /**
   * The guaranteed-rare flag is read once per `handleSpin` and passed to
   * every selector call, so with a non-common prize in the pool none of the
   * draws of a batch is common.
   */
  lemma {:induction false} BuffCoversBatch(pool: seq<Prize>, threshold: int, pity: int, rolls: seq<Roll>)
    requires |pool| > 0
    requires exists i :: 0 <= i < |pool| && pool[i].rarity != Common
    ensures forall j :: 0 <= j < |rolls| ==> Draws(pool, threshold, pity, true, rolls).results[j].rarity != Common
    decreases |rolls|
  {
    if rolls != [] {
      var front := rolls[..|rolls| - 1];
      BuffCoversBatch(pool, threshold, pity, front);
      var before := Draws(pool, threshold, pity, true, front);
      var s := Choose(pool, threshold, before.pity, true, rolls[|rolls| - 1]);
      var o := Draws(pool, threshold, pity, true, rolls);
      assert s.prize.rarity != Common;
      assert o.results == before.results + [s.prize];
      forall j | 0 <= j < |o.results|
        ensures o.results[j].rarity != Common
      {
        if j < |before.results| {
          assert o.results[j] == before.results[j];
          assert before.results[j].rarity != Common;
        } else {
          assert o.results[j] == s.prize;
        }
      }
    }
  }

  /** JavaScript's `%` on integers: the remainder has the sign of the dividend. */
  function JsRem(a: int, b: int): (m: int)
    requires b > 0
    ensures -b < m < b
    ensures a >= 0 ==> m == a % b
  {
    if a >= 0 then a % b else -((-a) % b)
  }

  /** `(target - current + displayCount) % displayCount` */
  function StepsNeeded(current: nat, target: nat, count: nat): int
    requires count > 0
  {
    JsRem(target - current + count, count)
  }

  /** `displayCount * MAX_LOOPS + stepsNeeded`: the ticks a single draw spins for. */
  function SingleStepBudget(current: nat, target: nat, count: nat): int
    requires count > 0
  {
    count * MAX_LOOPS + StepsNeeded(current, target, count)
  }

  /** The slot shown after `n` ticks of `(i + 1) % count` from slot `i`. */
  function Rotate(i: nat, n: nat, count: nat): nat
    requires count > 0
    decreases n
  {
    if n == 0 then i else Rotate((i + 1) % count, n - 1, count)
  }

  lemma {:induction false} RotateIsAddition(i: nat, n: nat, count: nat)
    requires count > 0 && n > 0
    ensures Rotate(i, n, count) == (i + n) % count
    decreases n
  {
    if n > 1 {
      RotateIsAddition((i + 1) % count, n - 1, count);
      ModAddition(i + 1, n - 1, count);
    }
  }

  /** Two numbers that differ by a multiple of `c`, the second in `[0, c)`, are related by `%`. */
  lemma ModOfCongruent(x: int, y: int, c: int, k: int)
    requires c > 0 && 0 <= y < c
    requires x - y == k * c
    ensures x % c == y
  {
    var q := x / c;
    var m := x % c;
    assert x == q * c + m;
    assert m - y == k * c - q * c;
    assert k * c - q * c == (k - q) * c;
    SmallMultiple(k - q, c);
  }

  lemma ModAddition(a: nat, b: nat, c: nat)
    requires c > 0
    ensures (a % c + b) % c == (a + b) % c
  {
    var x1 := a % c + b;
    assert a == (a / c) * c + a % c;
    assert x1 == (x1 / c) * c + x1 % c;
    ModOfCongruent(a + b, x1 % c, c, a / c + x1 / c);
  }

  /** JavaScript's remainder differs from the dividend by a multiple of the divisor. */
  lemma JsRemQuotient(a: int, b: int) returns (k: int)
    requires b > 0
    ensures a - JsRem(a, b) == k * b
  {
    if a >= 0 {
      k := a / b;
      assert a == k * b + a % b;
    } else {
      assert -a == ((-a) / b) * b + (-a) % b;
      k := -((-a) / b);
    }
  }

  /**
   * A single draw spins at least three ticks and, after exactly its budget
   * of `(i + 1) % count` ticks, shows the target slot. From a slot inside the
   * pool the extra steps lie in `[0, count)`; a slot left outside the pool
   * by an earlier, larger pool still lands on the target.
   */
  lemma Landing(current: nat, target: nat, count: nat)
    requires count > 0 && target < count
    ensures SingleStepBudget(current, target, count) >= 3
    ensures current < count ==> 0 <= StepsNeeded(current, target, count) < count
    ensures Rotate(current, SingleStepBudget(current, target, count) as nat, count) == target
  {
    var a := target - current + count;
    var steps := StepsNeeded(current, target, count);
    var budget := SingleStepBudget(current, target, count);
    assert budget == 3 * count + steps;
    var k := JsRemQuotient(a, count);
    RotateIsAddition(current, budget as nat, count);
    assert current + budget - target == (4 - k) * count;
    ModOfCongruent(current + budget, target, count, 4 - k);
  }

  /**
   * `finishSpin`'s `results.map(...)`: one entry per result, in result order.
   * `ids(j)` is the fresh id of the `j`-th entry (`${Date.now()}_${j}_<random>`).
   */
  function NewEntries(results: seq<Prize>, now: int, ids: nat -> string): (items: seq<HistoryItem>)
    ensures |items| == |results|
    ensures forall j :: 0 <= j < |items| ==>
              items[j].prizeName == results[j].name && items[j].rarity == results[j].rarity
  {
    seq(|results|, j requires 0 <= j < |results| => HistoryItem(ids(j), now, results[j].name, results[j].rarity))
  }

  /** The predicate `p => p.rarity === r` on prizes. */
  function PrizeRarityIs(r: Rarity): Prize -> bool
  {
    (p: Prize) => p.rarity == r
  }

  /** The new entries carry the results' rarities, so they count the results rarity by rarity. */
  lemma {:induction false} NewEntriesCount(results: seq<Prize>, now: int, ids: nat -> string, r: Rarity)
    ensures CountRarity(NewEntries(results, now, ids), r) == |Filter(results, PrizeRarityIs(r))|
    decreases |results|
  {
    if results != [] {
      var items := NewEntries(results, now, ids);
      var next := (j: nat) => ids(j + 1);
      assert items == [items[0]] + NewEntries(results[1..], now, next);
      CountConcat([items[0]], NewEntries(results[1..], now, next), r);
      NewEntriesCount(results[1..], now, next, r);
    }
  }

  datatype Reconciled = Reconciled(history: seq<HistoryItem>, user: UserState)

  /**
   * `finishSpin`'s state update: the new entries are prepended to the
   * history (newest first) and ten coins per result are credited.
   */
  function Reconcile(history: seq<HistoryItem>, user: UserState, results: seq<Prize>, now: int, ids: nat -> string)
    : (c: Reconciled)
    ensures |c.history| == |results| + |history|
    ensures c.history[|results|..] == history
    ensures forall j :: 0 <= j < |results| ==>
              c.history[j].prizeName == results[j].name && c.history[j].rarity == results[j].rarity
    ensures c.user == user.(coins := user.coins + COINS_PER_DRAW * |results|)
  {
    Reconciled(NewEntries(results, now, ids) + history, user.(coins := user.coins + COINS_PER_DRAW * |results|))
  }

  /** After reconciling, each rarity's count in the history grows by that rarity's count among the results. */
  lemma ReconcileCounts(history: seq<HistoryItem>, user: UserState, results: seq<Prize>, now: int, ids: nat -> string, r: Rarity)
    ensures CountRarity(Reconcile(history, user, results, now, ids).history, r)
            == CountRarity(history, r) + |Filter(results, PrizeRarityIs(r))|
  {
    CountConcat(NewEntries(results, now, ids), history, r);
    NewEntriesCount(results, now, ids, r);
  }
}
