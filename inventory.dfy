/**
 * The inventory dialog (components/UserInventory.tsx): the per-rarity
 * counts shown on its tabs and the filtered list below them.
 */
module Inventory {
  import opened Types
  import opened History

  datatype Counts = Counts(legendary: nat, rare: nat, common: nat)

  /** `counts`: one figure per rarity; together they account for every entry exactly once. */
  function CountsOf(history: seq<HistoryItem>): (c: Counts)
    ensures c.legendary == CountRarity(history, Legendary)
    ensures c.rare == CountRarity(history, Rare)
    ensures c.common == CountRarity(history, Common)
    ensures c.legendary + c.rare + c.common == |history|
  {
    CountsPartition(history);
    Counts(CountRarity(history, Legendary), CountRarity(history, Rare), CountRarity(history, Common))
  }

  /** The count on a rarity's tab is the length of the list that tab shows. */
  function CountFor(c: Counts, r: Rarity): nat
  {
    match r
    case Legendary => c.legendary
    case Rare => c.rare
    case Common => c.common
  }

  /**
   * `filteredHistory`: the whole history for `All`; for a rarity, an
   * order-preserving selection holding exactly that rarity's entries, as
   * many as its tab counts.
   */
  lemma {:induction false} FilteredMatchesCounts(history: seq<HistoryItem>, r: Rarity)
    ensures FilterHistory(history, All) == history
    ensures |FilterHistory(history, Only(r))| == CountFor(CountsOf(history), r)
    ensures forall h :: h in FilterHistory(history, Only(r)) <==> h in history && h.rarity == r
  {
    FilterComplete(history, RarityIs(r));
  }

  /** Newly drawn entries in front only add to the counts. */
  lemma CountsGrow(newer: seq<HistoryItem>, history: seq<HistoryItem>, r: Rarity)
    ensures CountFor(CountsOf(newer + history), r) == CountFor(CountsOf(newer), r) + CountFor(CountsOf(history), r)
  {
    CountConcat(newer, history, r);
  }
}
