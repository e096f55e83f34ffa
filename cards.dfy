/**
 * Suits, ranks and cards, with the two rank orders and the two point tables
 * of a Belote deck (game/card.go).
 */
module Cards {

  datatype Suit = Spades | Hearts | Diamonds | Clubs

  datatype Rank = Seven | Eight | Nine | Ten | Jack | Queen | King | Ace

  datatype Card = Card(suit: Suit, rank: Rank)

  const NUM_SUITS: nat := 4

  /** As declared in the source: four, although there are eight ranks. */
  const NUM_CARD_VALUES: nat := 4

  /** The eight ranks, in the order the source declares them. */
  const AllRanks: seq<Rank> := [Seven, Eight, Nine, Ten, Jack, Queen, King, Ace]

  const AllSuits: seq<Suit> := [Spades, Hearts, Diamonds, Clubs]

  /** Position of a rank in the non-trump order 7, 8, 9, J, Q, K, 10, A. */
  function NonTrumpOrderIndex(r: Rank): (i: nat)
    ensures i < 8
    ensures i == 0 <==> r == Seven
    ensures i == 6 <==> r == Ten
    ensures i == 7 <==> r == Ace
  {
    match r
    case Seven => 0
    case Eight => 1
    case Nine => 2
    case Jack => 3
    case Queen => 4
    case King => 5
    case Ten => 6
    case Ace => 7
  }

  /** Position of a rank in the trump order 7, 8, Q, K, 10, A, 9, J. */
  function TrumpOrderIndex(r: Rank): (i: nat)
    ensures i < 8
    ensures i == 0 <==> r == Seven
    ensures i == 6 <==> r == Nine
    ensures i == 7 <==> r == Jack
  {
    match r
    case Seven => 0
    case Eight => 1
    case Queen => 2
    case King => 3
    case Ten => 4
    case Ace => 5
    case Nine => 6
    case Jack => 7
  }

  /** Order index in the table that `isTrump` selects. */
  function OrderIndex(r: Rank, isTrump: bool): nat
  {
    if isTrump then TrumpOrderIndex(r) else NonTrumpOrderIndex(r)
  }

  function NonTrumpPoints(r: Rank): (p: nat)
    ensures p <= 11
  {
    match r
    case Seven => 0
    case Eight => 0
    case Nine => 0
    case Jack => 2
    case Queen => 3
    case King => 4
    case Ten => 10
    case Ace => 11
  }

  function TrumpPoints(r: Rank): (p: nat)
    ensures p <= 20
  {
    match r
    case Seven => 0
    case Eight => 0
    case Queen => 3
    case King => 4
    case Ten => 10
    case Ace => 11
    case Nine => 14
    case Jack => 20
  }

  function Points(r: Rank, isTrump: bool): nat
  {
    if isTrump then TrumpPoints(r) else NonTrumpPoints(r)
  }

  /** `Less(r1, r2, isTrump)`: r1 ranks below r2 in the selected order. */
  function Less(r1: Rank, r2: Rank, isTrump: bool): bool
  {
    OrderIndex(r1, isTrump) < OrderIndex(r2, isTrump)
  }

  /** The eight ranks from lowest to highest in the table that `isTrump` selects. */
  function RanksInOrder(isTrump: bool): seq<Rank>
  {
    if isTrump then [Seven, Eight, Queen, King, Ten, Ace, Nine, Jack]
    else [Seven, Eight, Nine, Jack, Queen, King, Ten, Ace]
  }

  /** Both order tables are one-to-one onto 0..7: the rank listed i-th has index i. */
  lemma OrderIndexBijective(isTrump: bool)
    ensures forall r1: Rank, r2: Rank :: OrderIndex(r1, isTrump) == OrderIndex(r2, isTrump) ==> r1 == r2
    ensures |RanksInOrder(isTrump)| == 8
    ensures forall i :: 0 <= i < 8 ==> OrderIndex(RanksInOrder(isTrump)[i], isTrump) == i
  {
  }

  /** For each table, `Less` is a strict total order on the eight ranks. */
  lemma LessIsStrictTotalOrder(isTrump: bool)
    ensures forall r: Rank :: !Less(r, r, isTrump)
    ensures forall r1: Rank, r2: Rank :: Less(r1, r2, isTrump) ==> !Less(r2, r1, isTrump)
    ensures forall r1: Rank, r2: Rank, r3: Rank :: Less(r1, r2, isTrump) && Less(r2, r3, isTrump) ==> Less(r1, r3, isTrump)
    ensures forall r1: Rank, r2: Rank :: r1 != r2 ==> Less(r1, r2, isTrump) || Less(r2, r1, isTrump)
  {
    OrderIndexBijective(isTrump);
  }

  /** A rank that is higher in a table is never worth fewer points in that table. */
  lemma PointsFollowOrder(isTrump: bool)
    ensures forall r1: Rank, r2: Rank :: Less(r1, r2, isTrump) ==> Points(r1, isTrump) <= Points(r2, isTrump)
  {
  }

  /** No card occurs twice in `d`. */
  predicate DistinctCards(d: seq<Card>)
  {
    forall i, j :: 0 <= i < j < |d| ==> d[i] != d[j]
  }

  /** Sum of the points of a sequence of ranks in one table. */
  function SumPoints(rs: seq<Rank>, isTrump: bool): nat
  {
    if rs == [] then 0 else Points(rs[0], isTrump) + SumPoints(rs[1..], isTrump)
  }

  /** The eight ranks of one suit are worth 30 as non-trump and 62 as trump. */
  lemma SuitTotals()
    ensures SumPoints(AllRanks, false) == 30
    ensures SumPoints(AllRanks, true) == 62
  {
    NonTrumpSuitTotal();
    TrumpSuitTotal();
  }

  lemma {:induction false} NonTrumpSuitTotal()
    ensures SumPoints(AllRanks, false) == 30
  {
    assert AllRanks[1..][1..][1..][1..][1..][1..][1..][1..] == [];
  }

  lemma {:induction false} TrumpSuitTotal()
    ensures SumPoints(AllRanks, true) == 62
  {
    assert AllRanks[1..][1..][1..][1..][1..][1..][1..][1..] == [];
  }

  /** The points of a whole 32-card deck when `trump` is the trump suit. */
  function DeckPoints(trump: Suit): nat
  {
    SuitPoints(AllSuits, trump)
  }

  function SuitPoints(suits: seq<Suit>, trump: Suit): nat
  {
    if suits == [] then 0 else SumPoints(AllRanks, suits[0] == trump) + SuitPoints(suits[1..], trump)
  }

  /** Whatever the trump suit, a full deck is worth 3 * 30 + 62 = 152 points. */
  lemma {:induction false} DeckIsWorth152(trump: Suit)
    ensures DeckPoints(trump) == 152
  {
    SuitTotals();
    assert AllSuits[1..][1..][1..][1..] == [];
  }
}
