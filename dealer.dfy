/**
 * The random dealer of game/dealer.go: a deck built from a permutation of
 * card numbers, dealt from the top with a cursor.  The permutation that
 * `rand.Perm` draws is a parameter.
 */
module Dealer {
  import opened Wrappers
  import opened Cards
  import opened GameErrors

  /** `NUM_SUITS * NUM_CARD_VALUES`, which is 16 because NUM_CARD_VALUES is 4. */
  const MAX_DECK_SIZE: nat := NUM_SUITS * NUM_CARD_VALUES

  /** The `suits` and `values` tables of shuffleDeck. */
  const Suits: seq<Suit> := [Spades, Hearts, Diamonds, Clubs]
  const Values: seq<Rank> := [Seven, Eight, Nine, Ten, Jack, Queen, King, Ace]

  /** The ranks a 16-card deck can hold: `v / NUM_SUITS < 4` only reaches the first four values. */
  const LowRanks: set<Rank> := {Seven, Eight, Nine, Ten}

  /** The size the deck evidently should have: one card per suit and value, 4 * 8. */
  const FULL_DECK_SIZE: nat := |Suits| * |Values|

  /** `perm` is a permutation of 0..n-1, as `rand.Perm(n)` returns. */
  predicate IsPerm(perm: seq<int>, n: nat)
  {
    |perm| == n
    && (forall i :: 0 <= i < n ==> 0 <= perm[i] < n)
    && (forall i, j :: 0 <= i < j < n ==> perm[i] != perm[j])
  }

  /** The card that number `v` stands for: suit `v % 4`, rank `v / 4`. */
  function CardOf(v: int): Card
    requires 0 <= v < |Suits| * |Values|
  {
    Card(Suits[v % NUM_SUITS], Values[v / NUM_SUITS])
  }

  /** The deck shuffleDeck builds from `perm`: position i holds the card numbered perm[i]. */
  function Shuffled(perm: seq<int>): seq<Card>
    requires forall i :: 0 <= i < |perm| ==> 0 <= perm[i] < |Suits| * |Values|
  {
    seq(|perm|, i requires 0 <= i < |perm| => CardOf(perm[i]))
  }

  /**
   * shuffleDeck (game/dealer.go:31-46), with the permutation given; its
   * length is the deck size, MAX_DECK_SIZE as written or FULL_DECK_SIZE.
   */
  method ShuffleDeck(perm: seq<int>) returns (deck: array<Card>)
    requires IsPerm(perm, |perm|) && |perm| <= FULL_DECK_SIZE
    ensures fresh(deck)
    ensures deck[..] == Shuffled(perm)
  {
    deck := new Card[|perm|];
    for i := 0 to |perm|
      invariant forall k :: 0 <= k < i ==> deck[k] == CardOf(perm[k])
    {
      deck[i] := Card(Suits[perm[i] % NUM_SUITS], Values[perm[i] / NUM_SUITS]);
    }
  }

  /** Different numbers stand for different cards. */
  lemma CardOfInjective(a: int, b: int)
    requires 0 <= a < 32 && 0 <= b < 32
    ensures CardOf(a) == CardOf(b) ==> a == b
  {
    if CardOf(a) == CardOf(b) {
      assert a % 4 == b % 4;
      assert a / 4 == b / 4;
      assert a == 4 * (a / 4) + a % 4;
      assert b == 4 * (b / 4) + b % 4;
    }
  }

  /** The cards of a shuffled deck are pairwise distinct. */
  lemma ShuffledDistinct(perm: seq<int>)
    requires IsPerm(perm, |perm|) && |perm| <= FULL_DECK_SIZE
    ensures |Shuffled(perm)| == |perm|
    ensures DistinctCards(Shuffled(perm))
  {
    forall i, j | 0 <= i < j < |perm|
      ensures Shuffled(perm)[i] != Shuffled(perm)[j]
    {
      CardOfInjective(perm[i], perm[j]);
    }
  }

  /** Every card of the 16-card deck is a Seven, Eight, Nine or Ten: none is a Jack. */
  lemma ShuffledRanksAreLow(perm: seq<int>)
    requires IsPerm(perm, MAX_DECK_SIZE)
    ensures MAX_DECK_SIZE == 16
    ensures forall i :: 0 <= i < |Shuffled(perm)| ==> Shuffled(perm)[i].rank in LowRanks
    ensures forall i :: 0 <= i < |Shuffled(perm)| ==> Shuffled(perm)[i].rank != Jack
  {
  }

  /** A sequence without repetitions has as many elements as its set. */
  lemma {:induction false} DistinctSetSize(s: seq<int>)
    requires forall i, j :: 0 <= i < j < |s| ==> s[i] != s[j]
    ensures |set x | x in s| == |s|
  {
    if s != [] {
      DistinctSetSize(s[1..]);
      assert (set x | x in s) == (set x | x in s[1..]) + {s[0]};
      assert s[0] !in (set x | x in s[1..]);
    }
  }

  /** The half-open range 0..n-1 as a set. */
  function Range(n: nat): set<int>
  {
    if n == 0 then {} else Range(n - 1) + {n - 1}
  }

  lemma {:induction false} RangeFacts(n: nat)
    ensures |Range(n)| == n
    ensures forall v :: v in Range(n) <==> 0 <= v < n
  {
    if n > 0 {
      RangeFacts(n - 1);
    }
  }

  /** A permutation of 0..n-1 takes every value in 0..n-1 (pigeonhole). */
  lemma PermCovers(perm: seq<int>, n: nat)
    requires IsPerm(perm, n)
    ensures forall v :: 0 <= v < n ==> v in perm
  {
    var image := set x | x in perm;
    DistinctSetSize(perm);
    RangeFacts(n);
    assert image <= Range(n);
    assert Range(n) == image + (Range(n) - image);
    assert |Range(n) - image| == 0;
    forall v | 0 <= v < n
      ensures v in perm
    {
      assert v in Range(n);
    }
  }

  /** The number that stands for a card; the low cards have the numbers below 16. */
  function NumberOf(c: Card): (v: nat)
    ensures v < FULL_DECK_SIZE && CardOf(v) == c
    ensures v < MAX_DECK_SIZE <==> c.rank in LowRanks
  {
    var s := match c.suit case Spades => 0 case Hearts => 1 case Diamonds => 2 case Clubs => 3;
    var r := match c.rank
      case Seven => 0 case Eight => 1 case Nine => 2 case Ten => 3
      case Jack => 4 case Queen => 5 case King => 6 case Ace => 7;
    4 * r + s
  }

  /** The 16-card deck holds exactly the sixteen cards of rank Seven to Ten. */
  lemma ShuffledContents(perm: seq<int>)
    requires IsPerm(perm, MAX_DECK_SIZE)
    ensures forall c: Card :: c in Shuffled(perm) <==> c.rank in LowRanks
  {
    PermCovers(perm, MAX_DECK_SIZE);
    forall c: Card | c.rank in LowRanks
      ensures c in Shuffled(perm)
    {
      var v := NumberOf(c);
      assert v in perm;
      var i :| 0 <= i < |perm| && perm[i] == v;
      assert Shuffled(perm)[i] == c;
    }
  }

  /** The corrected 32-card shuffle holds every card exactly once. */
  lemma FullShuffledContents(perm: seq<int>)
    requires IsPerm(perm, FULL_DECK_SIZE)
    ensures |Shuffled(perm)| == 32 && DistinctCards(Shuffled(perm))
    ensures forall c: Card :: c in Shuffled(perm)
  {
    ShuffledDistinct(perm);
    PermCovers(perm, FULL_DECK_SIZE);
    forall c: Card
      ensures c in Shuffled(perm)
    {
      var v := NumberOf(c);
      assert v in perm;
      var i :| 0 <= i < |perm| && perm[i] == v;
      assert Shuffled(perm)[i] == c;
    }
  }

  /** The cards of suit `s` in a deck. */
  function CardsOfSuit(d: seq<Card>, s: Suit): set<Card>
  {
    set c | c in d && c.suit == s
  }

  /** Each suit has exactly four cards in the deck, and (the deck being distinct) appears at exactly four positions. */
  lemma ShuffledSuitCount(perm: seq<int>, s: Suit)
    requires IsPerm(perm, MAX_DECK_SIZE)
    ensures CardsOfSuit(Shuffled(perm), s) == {Card(s, Seven), Card(s, Eight), Card(s, Nine), Card(s, Ten)}
    ensures |CardsOfSuit(Shuffled(perm), s)| == 4
  {
    ShuffledContents(perm);
    assert CardsOfSuit(Shuffled(perm), s) == {Card(s, Seven), Card(s, Eight), Card(s, Nine), Card(s, Ten)};
  }

  /** RandomDealer (game/dealer.go:8-29): a shuffled deck and the position of the next card. */
  class RandomDealer {
    const deck: array<Card>
    var cur: int

    ghost predicate Valid()
      reads this, deck
    {
      deck.Length == MAX_DECK_SIZE
      && 0 <= cur <= MAX_DECK_SIZE
      && DistinctCards(deck[..])
    }

    /** The cards dealt so far, in order. */
    ghost function Dealt(): seq<Card>
      reads this, deck
      requires Valid()
    {
      deck[..cur]
    }

    /** NewRandomDealer, with the permutation given. */
    constructor NewRandomDealer(perm: seq<int>)
      requires IsPerm(perm, MAX_DECK_SIZE)
      ensures Valid() && fresh(deck)
      ensures deck[..] == Shuffled(perm) && cur == 0 && Dealt() == []
    {
      ShuffledDistinct(perm);
      var d := ShuffleDeck(perm);
      deck := d;
      cur := 0;
    }

    /**
     * Deals the card at the cursor and advances it by one; once all sixteen
     * cards are gone, fails and leaves the cursor where it is.  A card is
     * never dealt twice.
     */
    method DealCard() returns (r: Result<Card, GameError>)
      requires Valid()
      modifies this
      ensures Valid() && deck[..] == old(deck[..])
      ensures old(cur) >= MAX_DECK_SIZE ==> r == Err(DeckEmpty) && cur == old(cur)
      ensures old(cur) < MAX_DECK_SIZE ==> r == Ok(deck[old(cur)]) && cur == old(cur) + 1
      ensures r.Ok? ==> Dealt() == old(Dealt()) + [r.value] && r.value !in old(Dealt())
    {
      if cur >= MAX_DECK_SIZE {
        return Err(DeckEmpty);
      }
      r := Ok(deck[cur]);
      cur := cur + 1;
      assert deck[..cur] == deck[..cur - 1] + [deck[cur - 1]];
    }
  }

  /** A dealer delivers at most sixteen cards, all different. */
  lemma DealtCardsBounded(dealt: seq<Card>, perm: seq<int>)
    requires IsPerm(perm, MAX_DECK_SIZE)
    requires dealt <= Shuffled(perm)
    ensures |dealt| <= 16 && DistinctCards(dealt)
    ensures forall i :: 0 <= i < |dealt| ==> dealt[i].rank != Jack
  {
    ShuffledDistinct(perm);
  }
}
