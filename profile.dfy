/**
 * The statistics of the profile page (components/Profile.tsx): the drop
 * counts, the luck score, the title earned by it, and the rarity filter of
 * the collection.
 */
module Profile {
  import opened Types
  import opened History
  import opened Arithmetic

  /** The page's `total`, `legendary` and `rare` counts. */
  datatype Stats = Stats(total: nat, legendary: nat, rare: nat)

  function StatsOf(history: seq<HistoryItem>): (s: Stats)
    ensures s.total == |history|
    ensures s.legendary == CountRarity(history, Legendary) && s.rare == CountRarity(history, Rare)
    ensures s.legendary + s.rare <= s.total
  {
    CountsPartition(history);
    Stats(|history|, CountRarity(history, Legendary), CountRarity(history, Rare))
  }

  /**
   * The luck score: 0 without draws, otherwise 50 plus ten times the average
   * points per draw (50 per legendary, 10 per rare), rounded down and capped
   * at 100.
   */
  function LuckScore(history: seq<HistoryItem>): (score: nat)
    ensures |history| == 0 ==> score == 0
    ensures |history| > 0 ==> 50 <= score <= 100
  {
    var s := StatsOf(history);
    if s.total == 0 then 0
    else
      var raw := (s.legendary * 500 + s.rare * 100) / s.total + 50;
      if raw < 100 then raw else 100
  }

  /** A history without legendary or rare drops scores exactly 50; one of legendaries only scores 100. */
  lemma LuckScoreExtremes(history: seq<HistoryItem>)
    requires |history| > 0
    ensures CountRarity(history, Common) == |history| ==> LuckScore(history) == 50
    ensures CountRarity(history, Legendary) == |history| ==> LuckScore(history) == 100
  {
    CountsPartition(history);
    var n := |history|;
    if CountRarity(history, Legendary) == n {
      assert CountRarity(history, Rare) == 0;
      ExactQuotient(500, n);
    }
  }

  /** `(n * k) / n == k` for positive `n`. */
  lemma ExactQuotient(k: nat, n: nat)
    requires n > 0
    ensures (n * k) / n == k
  {
    var q := (n * k) / n;
    var m := (n * k) % n;
    assert n * k == q * n + m;
    assert (k - q) * n == m by {
      assert (k - q) * n == k * n - q * n;
    }
    SmallMultiple(k - q, n);
  }

  /**
   * The `title` chain: each later test overrides the earlier ones, so the
   * highest band reached wins, and a player without draws is a newcomer.
   */
  method Title(luckScore: int, total: nat) returns (title: string)
    ensures total == 0 ==> title == "萌新报到"
    ensures total > 0 && luckScore > 90 ==> title == "天选之子"
    ensures total > 0 && 80 < luckScore <= 90 ==> title == "运气不错"
    ensures total > 0 && 60 < luckScore <= 80 ==> title == "普通玩家"
    ensures total > 0 && luckScore <= 60 ==> title == "初级非酋"
  {
    title := "初级非酋";
    if luckScore > 60 {
      title := "普通玩家";
    }
    if luckScore > 80 {
      title := "运气不错";
    }
    if luckScore > 90 {
      title := "天选之子";
    }
    if total == 0 {
      title := "萌新报到";
    }
  }

  /**
   * The collection filter: `All` shows the history as it is; a rarity shows
   * exactly the entries of that rarity, each as often as in the history, in
   * their original order, as many as that rarity's count.
   */
  lemma {:induction false} FilteredHistory(history: seq<HistoryItem>, r: Rarity)
    ensures FilterHistory(history, All) == history
    ensures forall h :: h in FilterHistory(history, Only(r)) <==> h in history && h.rarity == r
    ensures forall h :: multiset(FilterHistory(history, Only(r)))[h] == if h.rarity == r then multiset(history)[h] else 0
    ensures |FilterHistory(history, Only(r))| == CountRarity(history, r)
  {
    FilterComplete(history, RarityIs(r));
    FilterMultiset(history, RarityIs(r));
  }

  /** Filtering a concatenation filters each part in place: the kept entries keep their order. */
  lemma FilterKeepsOrder(a: seq<HistoryItem>, b: seq<HistoryItem>, f: HistoryFilter)
    ensures FilterHistory(a + b, f) == FilterHistory(a, f) + FilterHistory(b, f)
  {
    if f.Only? {
      FilterConcat(a, b, RarityIs(f.rarity));
    }
  }
}
