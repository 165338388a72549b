/**
 * The prize-list editor of the admin panel (components/AdminPanel.tsx):
 * adding, deleting, reordering and editing prizes, and the three counters of
 * the dashboard. Add, delete and edit build a new list; the move handler
 * copies the list into an array and rearranges the copy in place.
 */
module AdminPanel {
  import opened Types
  import opened History

  /** The three dashboard figures: draws so far, legendary drops, rare drops. */
  datatype Dashboard = Dashboard(totalSpins: nat, legendaryCount: nat, rareCount: nat)

  /** The dashboard counters; legendary and rare drops together never exceed the draws. */
  function DashboardOf(history: seq<HistoryItem>): (d: Dashboard)
    ensures d.totalSpins == |history|
    ensures d.legendaryCount == |OfRarity(history, Legendary)| && d.rareCount == |OfRarity(history, Rare)|
    ensures d.legendaryCount + d.rareCount <= d.totalSpins
  {
    CountsPartition(history);
    Dashboard(|history|, CountRarity(history, Legendary), CountRarity(history, Rare))
  }

  // ---------------------------------------------------------------- adding

  /**
   * The add-prize form (`Partial<Prize>`). An empty string stands for a
   * field that is missing or empty, `None` and `Some(0)` for a weight that is
   * missing or zero: JavaScript treats all of them as falsy.
   */
  datatype PrizeDraft = PrizeDraft(name: string, image: string, rarity: Option<Rarity>,
                                   description: string, weight: Option<int>)

  const DEFAULT_WEIGHT: int := 10
  const DEFAULT_DESCRIPTION: string := "暂无描述"

  /** The number a string of decimal digits denotes, most significant digit first. */
  function DigitsValue(s: string): nat
    requires forall i :: 0 <= i < |s| ==> '0' <= s[i] <= '9'
  {
    if s == [] then 0 else DigitsValue(s[..|s| - 1]) * 10 + (s[|s| - 1] - '0') as nat
  }

  /**
   * The decimal digits of `n`, as `n.toString()` writes them: digits only,
   * denoting `n`, without a leading zero unless `n` is zero.
   */
  function DecimalString(n: nat): (s: string)
    ensures |s| >= 1
    ensures forall i :: 0 <= i < |s| ==> '0' <= s[i] <= '9'
    ensures DigitsValue(s) == n
    ensures s[0] == '0' ==> n == 0
  {
    var digit := ['0' + (n % 10) as char];
    if n < 10 then digit
    else
      var front := DecimalString(n / 10);
      assert (front + digit)[..|front|] == front;
      front + digit
  }

  /** The placeholder image for a prize added at clock reading `t`. */
  function PlaceholderImage(t: nat): string
  {
    "https://picsum.photos/seed/" + DecimalString(t) + "/300/300"
  }

  /**
   * The prize built from a draft. `idTime` and `imageTime` are the two
   * `Date.now()` readings the handler takes (for the id and for the image).
   */
  function NewPrize(draft: PrizeDraft, idTime: nat, imageTime: nat): (p: Prize)
    ensures p.id == DecimalString(idTime)
    ensures draft.name != "" ==> p.name == draft.name
    ensures p.image == if draft.image == "" then PlaceholderImage(imageTime) else draft.image
    ensures p.rarity == if draft.rarity.None? then Common else draft.rarity.value
    ensures p.description == if draft.description == "" then DEFAULT_DESCRIPTION else draft.description
    ensures p.weight == if draft.weight == None || draft.weight == Some(0) then DEFAULT_WEIGHT else draft.weight.value
  {
    Prize(
      DecimalString(idTime),
      if draft.name == "" then "未命名" else draft.name,
      if draft.image == "" then PlaceholderImage(imageTime) else draft.image,
      match draft.rarity { case None => Common case Some(r) => r },
      if draft.description == "" then DEFAULT_DESCRIPTION else draft.description,
      match draft.weight { case None => DEFAULT_WEIGHT case Some(w) => if w == 0 then DEFAULT_WEIGHT else w })
  }

  /**
   * `handleAddPrize`: a draft without a name is refused and the list stays
   * as it is; otherwise exactly one prize is appended and the existing ones
   * are kept, in order.
   */
  function AddPrize(prizes: seq<Prize>, draft: PrizeDraft, idTime: nat, imageTime: nat): (r: seq<Prize>)
    ensures draft.name == "" ==> r == prizes
    ensures draft.name != "" ==>
              && |r| == |prizes| + 1
              && r[..|prizes|] == prizes
              && r[|prizes|] == NewPrize(draft, idTime, imageTime)
  {
    if draft.name == "" then prizes else prizes + [NewPrize(draft, idTime, imageTime)]
  }

  // -------------------------------------------------------------- deleting

  /** The predicate `p => p.id !== id`. */
  function NotId(id: string): Prize -> bool
  {
    (p: Prize) => p.id != id
  }

  /**
   * `handleDeletePrize`: without the user's confirmation nothing changes;
   * with it every prize carrying `id` goes and the others stay.
   */
  function DeletePrize(prizes: seq<Prize>, id: string, confirmed: bool): (r: seq<Prize>)
    ensures !confirmed ==> r == prizes
    ensures confirmed ==> forall p :: p in r ==> p in prizes && p.id != id
  {
    if confirmed then Filter(prizes, NotId(id)) else prizes
  }

  /** A confirmed delete keeps every other prize with its multiplicity. */
  lemma DeleteKeepsOthers(prizes: seq<Prize>, id: string)
    ensures forall p :: multiset(DeletePrize(prizes, id, true))[p] == if p.id == id then 0 else multiset(prizes)[p]
  {
    FilterMultiset(prizes, NotId(id));
  }

  /** A confirmed delete keeps the survivors in their order: it commutes with concatenation. */
  lemma DeleteKeepsOrder(a: seq<Prize>, b: seq<Prize>, id: string)
    ensures DeletePrize(a + b, id, true) == DeletePrize(a, id, true) + DeletePrize(b, id, true)
  {
    FilterConcat(a, b, NotId(id));
  }

  // ---------------------------------------------------------------- moving

  datatype Direction = Up | Down | Top

  /** The list `handleMovePrize` produces. */
  function Moved(prizes: seq<Prize>, index: nat, dir: Direction): seq<Prize>
    requires index < |prizes|
  {
    match dir
    case Top => [prizes[index]] + prizes[..index] + prizes[index + 1..]
    case Up => if index > 0 then prizes[index - 1 := prizes[index]][index := prizes[index - 1]] else prizes
    case Down => if index < |prizes| - 1 then prizes[index := prizes[index + 1]][index + 1 := prizes[index]] else prizes
  }

  /**
   * `handleMovePrize`: copies the list into an array, then either takes the
   * prize out at `index` and puts it in front, shifting the ones before it
   * back by one, or swaps it with a neighbour.
   */
  method MovePrize(prizes: seq<Prize>, index: nat, dir: Direction) returns (moved: seq<Prize>)
    requires index < |prizes|
    ensures moved == Moved(prizes, index, dir)
  {
    var a := new Prize[|prizes|](i requires 0 <= i < |prizes| => prizes[i]);
    assert a[..] == prizes;
    if dir == Top {
      ShiftToFront(a, index);
    } else if dir == Up && index > 0 {
      a[index], a[index - 1] := a[index - 1], a[index];
    } else if dir == Down && index < a.Length - 1 {
      a[index], a[index + 1] := a[index + 1], a[index];
    }
    moved := a[..];
  }

  /** `splice(index, 1)` then `unshift(item)`: the element at `index` goes first, those before it move back one slot. */
  method ShiftToFront<T>(a: array<T>, index: nat)
    requires index < a.Length
    modifies a
    ensures a[..] == [old(a[index])] + old(a[..index]) + old(a[index + 1..])
  {
    ghost var s := a[..];
    var item := a[index];
    var j := index;
    while j > 0
      invariant 0 <= j <= index
      invariant forall k :: 0 <= k <= j ==> a[k] == s[k]
      invariant forall k :: j < k <= index ==> a[k] == s[k - 1]
      invariant forall k :: index < k < a.Length ==> a[k] == s[k]
    {
      a[j] := a[j - 1];
      j := j - 1;
    }
    a[0] := item;
    assert forall k :: 0 <= k < a.Length ==> a[..][k] == ([s[index]] + s[..index] + s[index + 1..])[k];
  }

  /** Every move rearranges the list: same length, same prizes with the same multiplicities. */
  lemma MovePermutes(prizes: seq<Prize>, index: nat, dir: Direction)
    requires index < |prizes|
    ensures |Moved(prizes, index, dir)| == |prizes|
    ensures multiset(Moved(prizes, index, dir)) == multiset(prizes)
  {
    match dir
    case Top =>
      FrontPermutes(prizes, index);
    case Up =>
      if index > 0 {
        SwapPermutes(prizes, index - 1, index);
      }
    case Down =>
      if index < |prizes| - 1 {
        SwapPermutes(prizes, index, index + 1);
      }
  }

  /** Moving one element to the front keeps the multiset of elements. */
  lemma FrontPermutes<T>(s: seq<T>, i: nat)
    requires i < |s|
    ensures multiset([s[i]] + s[..i] + s[i + 1..]) == multiset(s)
  {
    var a, b := s[..i], s[i + 1..];
    assert s == a + [s[i]] + b;
    calc {
      multiset([s[i]] + a + b);
      multiset([s[i]]) + multiset(a) + multiset(b);
      multiset(a) + multiset([s[i]]) + multiset(b);
      multiset(a + [s[i]] + b);
    }
  }

  /** Exchanging two neighbours keeps the multiset of elements. */
  lemma SwapPermutes<T>(s: seq<T>, i: nat, j: nat)
    requires i < j < |s| && j == i + 1
    ensures multiset(s[i := s[j]][j := s[i]]) == multiset(s)
  {
    var t := s[i := s[j]][j := s[i]];
    assert s == s[..i] + [s[i], s[j]] + s[j + 1..];
    assert t == s[..i] + [s[j], s[i]] + s[j + 1..];
  }

  /**
   * Moving to the top puts the chosen prize first and keeps the relative
   * order of all the others: those before it move back one slot, those
   * after it stay where they are.
   */
  lemma MoveTopOrder(prizes: seq<Prize>, index: nat)
    requires index < |prizes|
    ensures var m := Moved(prizes, index, Top);
            && m[0] == prizes[index]
            && (forall k :: 0 <= k < index ==> m[k + 1] == prizes[k])
            && (forall k :: index < k < |prizes| ==> m[k] == prizes[k])
  {
  }

  /**
   * Moving up or down exchanges the prize with its neighbour when there is
   * one in that direction, and otherwise leaves the list as it is.
   */
  lemma MoveNeighbour(prizes: seq<Prize>, index: nat, dir: Direction)
    requires index < |prizes| && dir != Top
    ensures var other := if dir == Up then index - 1 else index + 1;
            var m := Moved(prizes, index, dir);
            if 0 <= other < |prizes| then
              && m[index] == prizes[other] && m[other] == prizes[index]
              && (forall k :: 0 <= k < |prizes| && k != index && k != other ==> m[k] == prizes[k])
            else m == prizes
  {
  }

  // --------------------------------------------------------------- editing

  /** One `[field]: value` edit of `handleUpdatePrize`, by prize field. */
  datatype PrizeEdit =
    | SetId(id: string)
    | SetName(name: string)
    | SetImage(image: string)
    | SetRarity(rarity: Rarity)
    | SetDescription(description: string)
    | SetWeight(weight: int)

  /** `{ ...p, [field]: value }`: the edited field takes the new value, all the others keep theirs. */
  function ApplyEdit(p: Prize, e: PrizeEdit): (q: Prize)
    ensures q.id == if e.SetId? then e.id else p.id
    ensures q.name == if e.SetName? then e.name else p.name
    ensures q.image == if e.SetImage? then e.image else p.image
    ensures q.rarity == if e.SetRarity? then e.rarity else p.rarity
    ensures q.description == if e.SetDescription? then e.description else p.description
    ensures q.weight == if e.SetWeight? then e.weight else p.weight
  {
    match e
    case SetId(v) => p.(id := v)
    case SetName(v) => p.(name := v)
    case SetImage(v) => p.(image := v)
    case SetRarity(v) => p.(rarity := v)
    case SetDescription(v) => p.(description := v)
    case SetWeight(v) => p.(weight := v)
  }

  /**
   * `handleUpdatePrize`: the prizes whose id matches get the edit, every
   * other prize stays identical, and the list keeps its length and order.
   */
  function UpdatePrize(prizes: seq<Prize>, id: string, e: PrizeEdit): (r: seq<Prize>)
    ensures |r| == |prizes|
    ensures forall i :: 0 <= i < |prizes| ==> r[i] == if prizes[i].id == id then ApplyEdit(prizes[i], e) else prizes[i]
  {
    seq(|prizes|, i requires 0 <= i < |prizes| => if prizes[i].id == id then ApplyEdit(prizes[i], e) else prizes[i])
  }

  /** An edit to an id no prize carries changes nothing. */
  lemma UpdateUnknownId(prizes: seq<Prize>, id: string, e: PrizeEdit)
    requires forall i :: 0 <= i < |prizes| ==> prizes[i].id != id
    ensures UpdatePrize(prizes, id, e) == prizes
  {
  }
}
