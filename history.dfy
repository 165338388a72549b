/**
 * Order-preserving filtering of lists (`Array.prototype.filter`) and the
 * per-rarity statistics over a draw history that the admin dashboard, the
 * missions page, the profile page and the inventory all compute.
 */
module History {
  import opened Types

  /** `s.filter(keep)`: the elements of `s` that satisfy `keep`, in their original order. */
  function Filter<T>(s: seq<T>, keep: T -> bool): (r: seq<T>)
    ensures |r| <= |s|
    ensures forall x :: x in r ==> x in s && keep(x)
  {
    if s == [] then []
    else (if keep(s[0]) then [s[0]] else []) + Filter(s[1..], keep)
  }

  /** Filtering commutes with concatenation: the kept elements keep their relative order. */
  lemma {:induction false} FilterConcat<T>(a: seq<T>, b: seq<T>, keep: T -> bool)
    ensures Filter(a + b, keep) == Filter(a, keep) + Filter(b, keep)
  {
    if a == [] {
      assert a + b == b;
    } else {
      assert (a + b)[0] == a[0];
      assert (a + b)[1..] == a[1..] + b;
      FilterConcat(a[1..], b, keep);
    }
  }

  /** Every element that satisfies `keep` survives with its multiplicity; every other one is dropped. */
  lemma {:induction false} FilterMultiset<T>(s: seq<T>, keep: T -> bool)
    ensures forall x :: multiset(Filter(s, keep))[x] == if keep(x) then multiset(s)[x] else 0
  {
    if s != [] {
      FilterMultiset(s[1..], keep);
      assert s == [s[0]] + s[1..];
    }
  }

  /** Nothing that satisfies `keep` is lost. */
  lemma {:induction false} FilterComplete<T>(s: seq<T>, keep: T -> bool)
    ensures forall x :: x in s && keep(x) ==> x in Filter(s, keep)
  {
    if s != [] {
      FilterComplete(s[1..], keep);
      assert forall x :: x in s ==> x == s[0] || x in s[1..];
    }
  }

  /** The predicate `h => h.rarity === r`. */
  function RarityIs(r: Rarity): HistoryItem -> bool
  {
    (h: HistoryItem) => h.rarity == r
  }

  /** `history.filter(h => h.rarity === r)` */
  function OfRarity(history: seq<HistoryItem>, r: Rarity): (s: seq<HistoryItem>)
    ensures forall h :: h in s ==> h in history && h.rarity == r
  {
    Filter(history, RarityIs(r))
  }

  /** `history.filter(h => h.rarity === r).length` */
  function CountRarity(history: seq<HistoryItem>, r: Rarity): (n: nat)
    ensures n <= |history|
  {
    |OfRarity(history, r)|
  }

  /** Every entry has exactly one rarity, so the three counts partition the history. */
  lemma {:induction false} CountsPartition(history: seq<HistoryItem>)
    ensures CountRarity(history, Legendary) + CountRarity(history, Rare)
            + CountRarity(history, Common) == |history|
  {
    if history != [] {
      CountsPartition(history[1..]);
    }
  }

  /** Counts over a concatenation add up. */
  lemma CountConcat(a: seq<HistoryItem>, b: seq<HistoryItem>, r: Rarity)
    ensures CountRarity(a + b, r) == CountRarity(a, r) + CountRarity(b, r)
  {
    FilterConcat(a, b, RarityIs(r));
  }

  /** The rarity filter of the profile and the inventory pages: `'all'` or one rarity. */
  datatype HistoryFilter = All | Only(rarity: Rarity)

  /** `filter === 'all' ? history : history.filter(h => h.rarity === filter)` */
  function FilterHistory(history: seq<HistoryItem>, f: HistoryFilter): (s: seq<HistoryItem>)
    ensures f.All? ==> s == history
    ensures f.Only? ==> forall h :: h in s ==> h in history && h.rarity == f.rarity
  {
    match f
    case All => history
    case Only(r) => OfRarity(history, r)
  }
}
