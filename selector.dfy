/**
 * The weighted selector of App.tsx (`getWeightedRandomPrize`): given the
 * active pool, the pity threshold, the pity counter and the guaranteed-rare
 * buff, it applies in strict order the pity override, the guaranteed-rare
 * buff and a linear weighted scan.
 *
 * Randomness is an explicit parameter. A `Roll` carries the two random
 * values one selector call may consume: `pick`, the uniform index used by
 * the pity and buff branches (`Math.floor(Math.random() * n)`, reduced here
 * modulo the candidate count `n`, which leaves every value below `n`
 * unchanged), and `r`, the position drawn in `[0, total)` for the scan.
 * Weights are integers, and for integer weights the scan on
 * `Math.floor(random)` returns what the scan on `random` returns, so `r` is
 * an integer.
 */
module Selector {
  import opened Types

  datatype Roll = Roll(pick: nat, r: int)

  /** What one selector call returns: the prize, its slot index in the pool and whether pity forced it. */
  datatype Selection = Selection(prize: Prize, index: nat, isPity: bool)

  /** `p.weight || 1`: a zero weight counts as one; any other weight is taken as it is. */
  function EffectiveWeight(p: Prize): (w: int)
    ensures p.weight == 0 ==> w == 1
    ensures p.weight >= 0 ==> w >= 1
    ensures p.weight != 0 ==> w == p.weight
  {
    if p.weight == 0 then 1 else p.weight
  }

  /** The sum of the effective weights of the first `k` slots. */
  function Prefix(pool: seq<Prize>, k: nat): int
    requires k <= |pool|
  {
    if k == 0 then 0 else Prefix(pool, k - 1) + EffectiveWeight(pool[k - 1])
  }

  /** `activePrizes.reduce((sum, p) => sum + (p.weight || 1), 0)` */
  function TotalWeight(pool: seq<Prize>): int
  {
    Prefix(pool, |pool|)
  }

  /** No slot has a negative weight (every effective weight is then at least 1). */
  predicate NonNegativeWeights(pool: seq<Prize>)
  {
    forall j :: 0 <= j < |pool| ==> pool[j].weight >= 0
  }

  /**
   * The scan loop from slot `i` on, with `rest` the part of the random
   * position not yet consumed: the first slot whose weight exceeds what
   * remains, or slot 0 when the loop runs off the end.
   */
  function ScanFrom(pool: seq<Prize>, i: nat, rest: int): (k: nat)
    requires i <= |pool|
    ensures |pool| > 0 ==> k < |pool|
    ensures i == |pool| ==> k == 0
    ensures k == 0 || i <= k
    decreases |pool| - i
  {
    if i == |pool| then 0
    else if rest < EffectiveWeight(pool[i]) then i
    else ScanFrom(pool, i + 1, rest - EffectiveWeight(pool[i]))
  }

  /** The standard weighted draw: slot 0 when the total weight is not positive, the scan otherwise. */
  function Scan(pool: seq<Prize>, r: int): (k: nat)
    ensures |pool| > 0 ==> k < |pool|
    ensures TotalWeight(pool) <= 0 ==> k == 0
  {
    if TotalWeight(pool) <= 0 then 0 else ScanFrom(pool, 0, r)
  }

  /** The scan loop of `getWeightedRandomPrize`, subtracting each weight from the random position. */
  method WeightedScan(pool: seq<Prize>, r: int) returns (index: nat)
    ensures index == Scan(pool, r)
    ensures |pool| > 0 ==> index < |pool|
  {
    if TotalWeight(pool) <= 0 {
      return 0;
    }
    var random := r;
    var i := 0;
    while i < |pool|
      invariant 0 <= i <= |pool|
      invariant ScanFrom(pool, i, random) == ScanFrom(pool, 0, r)
    {
      var weight := EffectiveWeight(pool[i]);
      if random < weight {
        return i;
      }
      random := random - weight;
      i := i + 1;
    }
    return 0;
  }

  /** With non-negative weights the prefix sums never decrease. */
  lemma {:induction false} PrefixMonotone(pool: seq<Prize>, i: nat, k: nat)
    requires NonNegativeWeights(pool)
    requires i <= k <= |pool|
    ensures Prefix(pool, i) + (k - i) <= Prefix(pool, k)
    decreases k - i
  {
    if i < k {
      PrefixMonotone(pool, i, k - 1);
    }
  }

  /**
   * From slot `i`, when the random position `r` lies in `[Prefix(i), total)`,
   * the scan returns slot `k >= i` exactly when `r` lies in that slot's
   * interval `[Prefix(k), Prefix(k + 1))`.
   */
  lemma {:induction false} ScanFromInterval(pool: seq<Prize>, i: nat, r: int, k: nat)
    requires NonNegativeWeights(pool)
    requires i <= k < |pool|
    requires Prefix(pool, i) <= r < TotalWeight(pool)
    ensures i <= ScanFrom(pool, i, r - Prefix(pool, i))
    ensures ScanFrom(pool, i, r - Prefix(pool, i)) == k <==> Prefix(pool, k) <= r < Prefix(pool, k + 1)
    decreases |pool| - i
  {
    var rest := r - Prefix(pool, i);
    if rest < EffectiveWeight(pool[i]) {
      if i < k {
        PrefixMonotone(pool, i + 1, k);
      }
    } else {
      if i + 1 == |pool| {
        assert false;
      }
      if i < k {
        ScanFromInterval(pool, i + 1, r, k);
      } else {
        ScanFromInterval(pool, i + 1, r, i + 1);
      }
    }
  }

  /**
   * The weighted scan is exact: for `0 <= r < total`, slot `k` is chosen
   * exactly for the `r` in `[Prefix(k), Prefix(k) + weight_k)`, an interval
   * whose length is the slot's effective weight.
   */
  lemma ScanInterval(pool: seq<Prize>, r: int, k: nat)
    requires NonNegativeWeights(pool)
    requires k < |pool|
    requires 0 <= r < TotalWeight(pool)
    ensures Scan(pool, r) == k <==> Prefix(pool, k) <= r < Prefix(pool, k) + EffectiveWeight(pool[k])
  {
    ScanFromInterval(pool, 0, r, k);
  }

  /** The integers of `[lo, hi)`. */
  function Interval(lo: int, hi: int): (s: set<int>)
    ensures forall x :: x in s <==> lo <= x < hi
    ensures lo <= hi ==> |s| == hi - lo
    decreases hi - lo
  {
    if hi <= lo then {} else Interval(lo, hi - 1) + {hi - 1}
  }

  /**
   * Exactly `weight_k` of the `total` equally likely positions select slot
   * `k`: the scan draws each prize with probability `weight / total`.
   */
  lemma ScanOdds(pool: seq<Prize>, k: nat)
    requires NonNegativeWeights(pool)
    requires k < |pool|
    ensures |set r: int | 0 <= r < TotalWeight(pool) && Scan(pool, r) == k| == EffectiveWeight(pool[k])
  {
    var lo := Prefix(pool, k);
    var hi := lo + EffectiveWeight(pool[k]);
    var total := TotalWeight(pool);
    PrefixMonotone(pool, 0, k);
    PrefixMonotone(pool, k + 1, |pool|);
    assert Prefix(pool, k + 1) == hi;
    assert 0 <= lo && hi <= total;
    var chosen := set r: int | 0 <= r < total && Scan(pool, r) == k;
    forall r | r in chosen
      ensures r in Interval(lo, hi)
    {
      ScanInterval(pool, r, k);
    }
    forall r | r in Interval(lo, hi)
      ensures r in chosen
    {
      ScanInterval(pool, r, k);
    }
    assert chosen == Interval(lo, hi);
  }

  /** The slot indices, in pool order, whose prize rarity satisfies `keep`. */
  function IndicesWhere(pool: seq<Prize>, keep: Rarity -> bool, from: nat): (ix: seq<nat>)
    requires from <= |pool|
    ensures forall j :: 0 <= j < |ix| ==> from <= ix[j] < |pool| && keep(pool[ix[j]].rarity)
    ensures forall i :: from <= i < |pool| && keep(pool[i].rarity) ==> i in ix
    ensures forall j, j' :: 0 <= j < j' < |ix| ==> ix[j] < ix[j']
    decreases |pool| - from
  {
    if from == |pool| then []
    else if keep(pool[from].rarity) then [from] + IndicesWhere(pool, keep, from + 1)
    else IndicesWhere(pool, keep, from + 1)
  }

  predicate IsLegendary(r: Rarity) { r == Legendary }

  predicate IsNotCommon(r: Rarity) { r != Common }

  /** `activePrizes.map((p, i) => ({ p, i })).filter(item => item.p.rarity === 'legendary')` */
  function Legendaries(pool: seq<Prize>): seq<nat>
  {
    IndicesWhere(pool, IsLegendary, 0)
  }

  /** `activePrizes.map((p, i) => ({ p, i })).filter(item => item.p.rarity !== 'common')` */
  function BetterPrizes(pool: seq<Prize>): seq<nat>
  {
    IndicesWhere(pool, IsNotCommon, 0)
  }

  /** The pity override engages: the threshold is on, the next draw reaches it and the pool holds a legendary. */
  predicate PityFires(pool: seq<Prize>, threshold: int, pity: int)
  {
    threshold > 0 && pity + 1 >= threshold && exists i :: 0 <= i < |pool| && pool[i].rarity == Legendary
  }

  /** The pool holds a prize better than common, so the guaranteed-rare buff has candidates. */
  predicate HasBetter(pool: seq<Prize>)
  {
    exists i :: 0 <= i < |pool| && pool[i].rarity != Common
  }

  /**
   * `getWeightedRandomPrize(activePrizes, currentPity)` with the buff flag and
   * the random values explicit: pity picks uniformly among the legendaries,
   * otherwise the buff picks uniformly among the non-common prizes, otherwise
   * the weighted scan decides.
   */
  function Choose(pool: seq<Prize>, threshold: int, pity: int, guaranteedRare: bool, roll: Roll): (s: Selection)
    requires |pool| > 0
    ensures s.index < |pool| && s.prize == pool[s.index]
    ensures s.isPity <==> PityFires(pool, threshold, pity)
    ensures s.isPity ==> s.prize.rarity == Legendary
    ensures s.isPity ==> |Legendaries(pool)| > 0 && s.index == Legendaries(pool)[roll.pick % |Legendaries(pool)|]
    ensures !s.isPity && guaranteedRare && HasBetter(pool) ==> s.prize.rarity != Common
    ensures !s.isPity && guaranteedRare && HasBetter(pool) ==>
              |BetterPrizes(pool)| > 0 && s.index == BetterPrizes(pool)[roll.pick % |BetterPrizes(pool)|]
    ensures !s.isPity && !(guaranteedRare && HasBetter(pool)) ==> s.index == Scan(pool, roll.r)
  {
    var legendaries := Legendaries(pool);
    var better := BetterPrizes(pool);
    if threshold > 0 && pity + 1 >= threshold && |legendaries| > 0 then
      var i := legendaries[roll.pick % |legendaries|];
      Selection(pool[i], i, true)
    else if guaranteedRare && |better| > 0 then
      var i := better[roll.pick % |better|];
      Selection(pool[i], i, false)
    else
      var i := Scan(pool, roll.r);
      Selection(pool[i], i, false)
  }

  /** `getWeightedRandomPrize`, running the scan loop. */
  method GetWeightedRandomPrize(pool: seq<Prize>, threshold: int, pity: int, guaranteedRare: bool, roll: Roll)
    returns (s: Selection)
    requires |pool| > 0
    ensures s == Choose(pool, threshold, pity, guaranteedRare, roll)
  {
    var legendaries := Legendaries(pool);
    if threshold > 0 && pity + 1 >= threshold && |legendaries| > 0 {
      var i := legendaries[roll.pick % |legendaries|];
      return Selection(pool[i], i, true);
    }
    var better := BetterPrizes(pool);
    if guaranteedRare && |better| > 0 {
      var i := better[roll.pick % |better|];
      return Selection(pool[i], i, false);
    }
    var i := WeightedScan(pool, roll.r);
    return Selection(pool[i], i, false);
  }
  /**
   * The uniform pick among candidates is fair: of the `n` equally likely
   * picks in `[0, n)`, exactly one lands on each candidate slot and none on
   * any other slot. Both candidate lists are strictly increasing.
   */
  lemma PickOdds(cands: seq<nat>, x: nat)
    requires forall j, j' :: 0 <= j < j' < |cands| ==> cands[j] < cands[j']
    ensures |set p: nat | p < |cands| && cands[p % |cands|] == x| == if x in cands then 1 else 0
  {
    var n := |cands|;
    var picks := set p: nat | p < n && cands[p % n] == x;
    if x in cands {
      var j :| 0 <= j < n && cands[j] == x;
      forall p | p in picks
        ensures p == j
      {
        SmallRemainder(p, n);
        Injective(cands, p, j);
      }
      SmallRemainder(j, n);
      assert j in picks;
      assert picks == {j};
    } else {
      assert picks == {};
    }
  }

  /** A pick below the candidate count is its own remainder. */
  lemma SmallRemainder(p: nat, n: nat)
    requires p < n
    ensures p % n == p
  {
  }

  /** A strictly increasing list holds each slot once. */
  lemma Injective(cands: seq<nat>, p: nat, j: nat)
    requires forall a, b :: 0 <= a < b < |cands| ==> cands[a] < cands[b]
    requires p < |cands| && j < |cands|
    ensures cands[p] == cands[j] ==> p == j
  {
  }
}
