/**
 * Where the 32 cards of a hand are (game/hand.go): in a seat's hand, on
 * the table, in the dealer's remaining deck, or among the tricks already
 * scored.  The Go code keeps no record of the scored cards; the model
 * does, as ghost state, to show that dealing and playing never create,
 * lose or duplicate a card and that the team totals of a finished hand are
 * the points of the whole deck.
 */
module CardAccount {
  import opened Wrappers
  import opened Cards
  import opened Players
  import opened Dealer
  import opened Trick
  import opened HandDeal

  // ---- The deck as a set, and the points of a set of cards ----

  /** Every card of the game, taken from the corrected 32-card shuffle with the identity permutation. */
  function AllCards(): set<Card>
  {
    Elems(Shuffled(seq(FULL_DECK_SIZE, i => i)))
  }

  /** There are 32 cards, and every card is one of them. */
  lemma AllCardsFacts()
    ensures |AllCards()| == 32
    ensures forall c: Card :: c in AllCards()
  {
    var id := seq(FULL_DECK_SIZE, i => i);
    assert IsPerm(id, FULL_DECK_SIZE);
    FullShuffledContents(id);
    DistinctNoRepeats(Shuffled(id));
    ElemsSize(Shuffled(id));
  }

  /** The full deck holds 4 * 8 = 32 cards. */
  lemma DeckSize()
    ensures FULL_DECK_SIZE == 32
  {
    assert |Suits| == 4 && |Values| == 8;
  }

  lemma DisjointUnionSize(a: set<Card>, b: set<Card>)
    requires a !! b
    ensures |a + b| == |a| + |b|
  {
    assert a * b == {};
  }

  /** A set of 32 cards is the whole deck. */
  lemma ThirtyTwoIsAll(s: set<Card>)
    requires |s| >= 32
    ensures s == AllCards()
  {
    AllCardsFacts();
    var rest := AllCards() - s;
    assert AllCards() == s + rest;
    DisjointUnionSize(s, rest);
    assert rest == {};
  }

  /** The points of the cards of `cs` that are of suit `s` and of a rank in `rs`. */
  function RankSum(s: Suit, rs: seq<Rank>, cs: set<Card>, trump: Suit): nat
  {
    if rs == [] then 0
    else (if Card(s, rs[0]) in cs then Points(rs[0], s == trump) else 0) + RankSum(s, rs[1..], cs, trump)
  }

  /** The points of the cards of `cs` that are of a suit in `suits`. */
  function SuitSum(suits: seq<Suit>, cs: set<Card>, trump: Suit): nat
  {
    if suits == [] then 0 else RankSum(suits[0], AllRanks, cs, trump) + SuitSum(suits[1..], cs, trump)
  }

  /** The points of a set of cards, suit by suit and rank by rank: the reference sum. */
  function SuitBySuit(cs: set<Card>, trump: Suit): nat
  {
    SuitSum(AllSuits, cs, trump)
  }

  /** Some card of a non-empty set. */
  ghost function PickCard(cs: set<Card>): Card
    requires cs != {}
  {
    var c :| c in cs; c
  }

  /** The points of a set of cards, one card at a time. */
  ghost function PointsOf(cs: set<Card>, trump: Suit): nat
    decreases cs
  {
    if cs == {} then 0 else CardPoints(PickCard(cs), trump) + PointsOf(cs - {PickCard(cs)}, trump)
  }

  lemma {:induction false} RankSumUnion(s: Suit, rs: seq<Rank>, a: set<Card>, b: set<Card>, trump: Suit)
    requires a !! b
    ensures RankSum(s, rs, a + b, trump) == RankSum(s, rs, a, trump) + RankSum(s, rs, b, trump)
  {
    if rs != [] {
      RankSumUnion(s, rs[1..], a, b, trump);
    }
  }

  lemma {:induction false} SuitSumUnion(suits: seq<Suit>, a: set<Card>, b: set<Card>, trump: Suit)
    requires a !! b
    ensures SuitSum(suits, a + b, trump) == SuitSum(suits, a, trump) + SuitSum(suits, b, trump)
  {
    if suits != [] {
      RankSumUnion(suits[0], AllRanks, a, b, trump);
      SuitSumUnion(suits[1..], a, b, trump);
    }
  }

  /** The points of two sets of cards without a common card add up. */
  lemma PointsOfUnion(a: set<Card>, b: set<Card>, trump: Suit)
    requires a !! b
    ensures PointsOf(a + b, trump) == PointsOf(a, trump) + PointsOf(b, trump)
  {
    SuitSumUnion(AllSuits, a, b, trump);
    PointsOfIsSuitBySuit(a + b, trump);
    PointsOfIsSuitBySuit(a, trump);
    PointsOfIsSuitBySuit(b, trump);
  }

  lemma {:induction false} SuitSumEmpty(suits: seq<Suit>, trump: Suit)
    ensures SuitSum(suits, {}, trump) == 0
  {
    if suits != [] {
      RankSumEmpty(suits[0], AllRanks, trump);
      SuitSumEmpty(suits[1..], trump);
    }
  }

  lemma {:induction false} RankSumEmpty(s: Suit, rs: seq<Rank>, trump: Suit)
    ensures RankSum(s, rs, {}, trump) == 0
  {
    if rs != [] {
      RankSumEmpty(s, rs[1..], trump);
    }
  }


  lemma {:induction false} RankSumSingle(s: Suit, rs: seq<Rank>, c: Card, trump: Suit)
    requires forall i, j :: 0 <= i < j < |rs| ==> rs[i] != rs[j]
    ensures RankSum(s, rs, {c}, trump) == if c.suit == s && c.rank in rs then Points(c.rank, s == trump) else 0
  {
    if rs != [] {
      RankSumSingle(s, rs[1..], c, trump);
      assert c.rank in rs <==> c.rank == rs[0] || c.rank in rs[1..];
      if c == Card(s, rs[0]) {
        assert c.rank !in rs[1..] by {
          forall j | 0 <= j < |rs[1..]|
            ensures rs[1..][j] != rs[0]
          {
            assert rs[1..][j] == rs[j + 1];
          }
        }
      }
    }
  }

  lemma {:induction false} SuitSumSingle(suits: seq<Suit>, c: Card, trump: Suit)
    requires forall i, j :: 0 <= i < j < |suits| ==> suits[i] != suits[j]
    requires c.rank in AllRanks
    ensures SuitSum(suits, {c}, trump) == if c.suit in suits then Points(c.rank, c.suit == trump) else 0
  {
    if suits != [] {
      RankSumSingle(suits[0], AllRanks, c, trump);
      SuitSumSingle(suits[1..], c, trump);
      assert c.suit in suits <==> c.suit == suits[0] || c.suit in suits[1..];
      if c.suit == suits[0] {
        assert c.suit !in suits[1..] by {
          forall j | 0 <= j < |suits[1..]|
            ensures suits[1..][j] != suits[0]
          {
            assert suits[1..][j] == suits[j + 1];
          }
        }
      }
    }
  }

  /** One card is worth its points under the trump suit. */
  lemma SuitBySuitSingle(c: Card, trump: Suit)
    ensures SuitBySuit({c}, trump) == CardPoints(c, trump)
  {
    assert c.rank in AllRanks by {
      match c.rank
      case Seven => assert AllRanks[0] == Seven;
      case Eight => assert AllRanks[1] == Eight;
      case Nine => assert AllRanks[2] == Nine;
      case Ten => assert AllRanks[3] == Ten;
      case Jack => assert AllRanks[4] == Jack;
      case Queen => assert AllRanks[5] == Queen;
      case King => assert AllRanks[6] == King;
      case Ace => assert AllRanks[7] == Ace;
    }
    assert c.suit in AllSuits by {
      match c.suit
      case Spades => assert AllSuits[0] == Spades;
      case Hearts => assert AllSuits[1] == Hearts;
      case Diamonds => assert AllSuits[2] == Diamonds;
      case Clubs => assert AllSuits[3] == Clubs;
    }
    SuitSumSingle(AllSuits, c, trump);
  }

  /** Card by card, one card is worth its points. */
  lemma PointsOfSingle(c: Card, trump: Suit)
    ensures PointsOf({c}, trump) == CardPoints(c, trump)
  {
    assert PickCard({c}) == c;
    assert {c} - {c} == {};
  }

  lemma {:induction false} RankSumAll(s: Suit, rs: seq<Rank>, cs: set<Card>, trump: Suit)
    requires forall c: Card :: c in cs
    ensures RankSum(s, rs, cs, trump) == SumPoints(rs, s == trump)
  {
    if rs != [] {
      RankSumAll(s, rs[1..], cs, trump);
    }
  }

  lemma {:induction false} SuitSumAll(suits: seq<Suit>, cs: set<Card>, trump: Suit)
    requires forall c: Card :: c in cs
    ensures SuitSum(suits, cs, trump) == SuitPoints(suits, trump)
  {
    if suits != [] {
      RankSumAll(suits[0], AllRanks, cs, trump);
      SuitSumAll(suits[1..], cs, trump);
    }
  }

  /**
   * Counting card by card gives the reference sum, suit by suit: the
   * choice of the next card does not matter.
   */
  lemma {:induction false} PointsOfIsSuitBySuit(cs: set<Card>, trump: Suit)
    ensures PointsOf(cs, trump) == SuitBySuit(cs, trump)
    decreases |cs|
  {
    if cs == {} {
      SuitSumEmpty(AllSuits, trump);
    } else {
      var c := PickCard(cs);
      PointsOfIsSuitBySuit(cs - {c}, trump);
      SuitSumUnion(AllSuits, {c}, cs - {c}, trump);
      assert {c} + (cs - {c}) == cs;
      SuitBySuitSingle(c, trump);
    }
  }

  /** The whole deck is worth 152 points, whatever the trump suit. */
  lemma PointsOfAllCards(trump: Suit)
    ensures PointsOf(AllCards(), trump) == 152
  {
    AllCardsFacts();
    SuitSumAll(AllSuits, AllCards(), trump);
    DeckIsWorth152(trump);
    PointsOfIsSuitBySuit(AllCards(), trump);
  }

  /**
   * A finished trick without repeated cards is worth the points of its
   * set of cards, which is what GetTrickResult adds up (trick.go:43-69).
   */
  lemma TrickPointsOfCards(v: TrickView)
    requires WellFormed(v) && IsFinishedOf(v) && DistinctTrickCards(v)
    ensures TrickPoints(v) == PointsOf(PlayedCards(v), v.trump)
  {
    TrickPointsBounded(v);
    var c1, c2, c3, c4 := v.cards[Player1], v.cards[Player2], v.cards[Player3], v.cards[Player4];
    assert v.cards.Keys == Seats;
    assert PlayedCards(v) == {c1} + {c2} + {c3} + {c4};
    PointsOfUnion({c1}, {c2}, v.trump);
    PointsOfUnion({c1} + {c2}, {c3}, v.trump);
    PointsOfUnion({c1} + {c2} + {c3}, {c4}, v.trump);
    PointsOfSingle(c1, v.trump);
    PointsOfSingle(c2, v.trump);
    PointsOfSingle(c3, v.trump);
    PointsOfSingle(c4, v.trump);
  }

  // ---- The account of the cards ----

  /** The cards held by the four seats. */
  function Held(h: Hands): set<Card>
    requires Seats <= h.Keys
  {
    h[Player1] + h[Player2] + h[Player3] + h[Player4]
  }

  /** The four hands are apart from each other and from the cards `out`. */
  predicate Split(h: Hands, out: set<Card>)
  {
    Seats <= h.Keys
    && h[Player1] !! out && h[Player2] !! out && h[Player3] !! out && h[Player4] !! out
    && h[Player1] !! h[Player2] && h[Player1] !! h[Player3] && h[Player1] !! h[Player4]
    && h[Player2] !! h[Player3] && h[Player2] !! h[Player4] && h[Player3] !! h[Player4]
  }

  /**
   * No card is in two places: the four hands, the cards `out` of the hands
   * and the remaining deck are pairwise disjoint, and the deck holds no
   * card twice.
   */
  predicate Apart(h: Hands, out: set<Card>, deck: seq<Card>)
  {
    Split(h, out) && out !! Elems(deck) && NoRepeats(deck)
    && h[Player1] !! Elems(deck) && h[Player2] !! Elems(deck) && h[Player3] !! Elems(deck) && h[Player4] !! Elems(deck)
  }

  /** 1 when `p` has played to the current trick, else 0. */
  function Mark(p: PlayerId, played: set<PlayerId>): nat
  {
    if p in played then 1 else 0
  }

  /** Every seat has played the same number of cards: each hand plus its card on the table is the same size. */
  predicate Even(h: Hands, played: set<PlayerId>)
    requires Seats <= h.Keys
  {
    |h[Player2]| + Mark(Player2, played) == |h[Player1]| + Mark(Player1, played)
    && |h[Player3]| + Mark(Player3, played) == |h[Player1]| + Mark(Player1, played)
    && |h[Player4]| + Mark(Player4, played) == |h[Player1]| + Mark(Player1, played)
  }

  /** The card seat `p` laid on the table, if any, is in no hand and not among the scored cards. */
  predicate OffHands(h: Hands, v: TrickView, won: set<Card>, p: PlayerId)
    requires Seats <= h.Keys
  {
    p in v.cards ==>
      v.cards[p] !in h[Player1] && v.cards[p] !in h[Player2] && v.cards[p] !in h[Player3]
      && v.cards[p] !in h[Player4] && v.cards[p] !in won
  }

  /** Seats `p` and `q` did not lay the same card. */
  predicate NotSame(v: TrickView, p: PlayerId, q: PlayerId)
  {
    p in v.cards && q in v.cards ==> v.cards[p] != v.cards[q]
  }

  /** Only seats lay cards, and the cards on the table are apart from the hands, the scored cards and each other. */
  predicate TableApart(h: Hands, v: TrickView, won: set<Card>)
    requires Seats <= h.Keys
  {
    v.cards.Keys <= Seats
    && OffHands(h, v, won, Player1) && OffHands(h, v, won, Player2)
    && OffHands(h, v, won, Player3) && OffHands(h, v, won, Player4)
    && NotSame(v, Player1, Player2) && NotSame(v, Player1, Player3) && NotSame(v, Player1, Player4)
    && NotSame(v, Player2, Player3) && NotSame(v, Player2, Player4) && NotSame(v, Player3, Player4)
  }

  /** How many cards the hands, the table and the scored cards hold between them. */
  function CardCount(h: Hands, v: TrickView, won: set<Card>): nat
    requires Seats <= h.Keys
  {
    |h[Player1]| + |h[Player2]| + |h[Player3]| + |h[Player4]| + |v.cards| + |won|
  }

  /** No card in two places, the card laid by each seat included, and 32 cards counted place by place. */
  predicate Placed(h: Hands, v: TrickView, won: set<Card>)
  {
    Split(h, won) && TableApart(h, v, won) && CardCount(h, v, won) == FULL_DECK_SIZE
  }

  /**
   * The account of a hand in play: the hands, the trick `v` and the scored
   * cards `won` hold 32 cards counted place by place and 32 counted as one
   * set, so that no card is in two places once the trick is laid by seats
   * only (CountedIsPlaced); each seat has
   * played as often as the others; and the team totals are the points of
   * the scored cards.  PlayAccountPlaces says what this means for the deck.
   */
  ghost predicate PlayAccount(h: Hands, v: TrickView, won: set<Card>, totals: map<TeamId, int>)
  {
    Seats <= h.Keys
    && CardCount(h, v, won) == FULL_DECK_SIZE
    && |Held(h) + PlayedCards(v) + won| == FULL_DECK_SIZE
    && Even(h, v.cards.Keys)
    && Team1 in totals && Team2 in totals
    && totals[Team1] + totals[Team2] == PointsOf(won, v.trump)
  }

  /** The hands during a trump ballot: five cards each, apart from each other, the table card and the deck. */
  predicate BallotAccount(h: Hands, tableCard: Card, deck: seq<Card>)
  {
    Apart(h, {tableCard}, deck)
    && |h[Player1]| == NUM_CARDS_BEFORE_TRUMP && |h[Player2]| == NUM_CARDS_BEFORE_TRUMP
    && |h[Player3]| == NUM_CARDS_BEFORE_TRUMP && |h[Player4]| == NUM_CARDS_BEFORE_TRUMP
  }

  /** The account of a finished hand: no card left in a hand or the deck, all 32 scored. */
  predicate FinishedAccount(h: Hands, won: set<Card>, deck: seq<Card>)
  {
    Seats <= h.Keys && h[Player1] == {} && h[Player2] == {} && h[Player3] == {} && h[Player4] == {}
    && deck == [] && |won| == FULL_DECK_SIZE
  }

  // ---- What the account means ----

  /** Distinct cards on the table, seat by seat, are distinct cards. */
  lemma DistinctFromPairs(v: TrickView)
    requires v.cards.Keys <= Seats
    requires NotSame(v, Player1, Player2) && NotSame(v, Player1, Player3) && NotSame(v, Player1, Player4)
    requires NotSame(v, Player2, Player3) && NotSame(v, Player2, Player4) && NotSame(v, Player3, Player4)
    ensures DistinctTrickCards(v)
  {
    forall p, q | p in v.cards && q in v.cards && p != q
      ensures v.cards[p] != v.cards[q]
    {
      assert p in Seats && q in Seats;
    }
  }

  /** A card on the table is the card of a seat that played. */
  lemma TableCardOf(v: TrickView, x: Card) returns (q: PlayerId)
    requires x in PlayedCards(v)
    ensures q in v.cards && v.cards[q] == x
  {
    q :| q in v.cards && v.cards[q] == x;
  }

  /** The cards on the table are in no hand and not among the scored ones. */
  lemma TableOffHands(h: Hands, v: TrickView, won: set<Card>)
    requires Split(h, won) && TableApart(h, v, won)
    ensures Split(h, PlayedCards(v)) && PlayedCards(v) !! won
  {
    forall x | x in PlayedCards(v)
      ensures x !in h[Player1] && x !in h[Player2] && x !in h[Player3] && x !in h[Player4] && x !in won
    {
      var q := TableCardOf(v, x);
      assert OffHands(h, v, won, q);
    }
  }

  /**
   * What the account of a hand in play means: no card lies twice on the
   * table, no card is both in a hand, on the table or among the scored
   * cards, and together these are the whole 32-card deck.
   */
  lemma PlayAccountPlaces(h: Hands, v: TrickView, won: set<Card>, totals: map<TeamId, int>)
    requires PlayAccount(h, v, won, totals) && v.cards.Keys <= Seats
    ensures DistinctTrickCards(v)
    ensures Apart(h, PlayedCards(v) + won, []) && PlayedCards(v) !! won
    ensures Held(h) + PlayedCards(v) + won == AllCards()
  {
    CountedIsPlaced(h, v, won);
    TableOffHands(h, v, won);
    SplitUnion(h, PlayedCards(v), won);
    assert Elems([]) == {};
    DeckSize();
    ThirtyTwoIsAll(Held(h) + PlayedCards(v) + won);
  }

  /** A union holds at most the cards of its parts, and exactly that many only when they are apart. */
  lemma UnionBound(a: set<Card>, b: set<Card>)
    ensures |a + b| <= |a| + |b|
    ensures |a + b| == |a| + |b| ==> a !! b
  {
    assert |a + b| + |a * b| == |a| + |b|;
    if |a + b| == |a| + |b| {
      assert a * b == {};
      forall x | x in a
        ensures x !in b
      {
        assert x !in a * b;
      }
    }
  }

  /** The four hands hold at most the sum of their sizes, and exactly that many only when they are apart. */
  lemma HeldBound(h: Hands)
    requires Seats <= h.Keys
    ensures |Held(h)| <= |h[Player1]| + |h[Player2]| + |h[Player3]| + |h[Player4]|
    ensures |Held(h)| == |h[Player1]| + |h[Player2]| + |h[Player3]| + |h[Player4]| ==> Split(h, {})
  {
    var a, b, c, d := h[Player1], h[Player2], h[Player3], h[Player4];
    UnionBound(a, b);
    UnionBound(a + b, c);
    UnionBound(a + b + c, d);
  }

  /**
   * The table holds at most one card per seat that played, and exactly
   * that many if and only if no card lies twice.
   */
  lemma {:induction false} PlayedBound(v: TrickView)
    requires v.cards.Keys <= Seats
    ensures |PlayedCards(v)| <= |v.cards|
    ensures |PlayedCards(v)| == |v.cards| <==> DistinctTrickCards(v)
    decreases |v.cards.Keys|
  {
    if v.cards.Keys == {} {
      assert PlayedCards(v) == {};
    } else {
      var k := if Player1 in v.cards then Player1 else if Player2 in v.cards then Player2
               else if Player3 in v.cards then Player3 else Player4;
      var v' := v.(cards := v.cards - {k});
      assert v'.cards.Keys == v.cards.Keys - {k};
      assert |v'.cards.Keys| == |v.cards.Keys| - 1;
      PlayedBound(v');
      RemoveSeat(v, k, v');
      UnionBound(PlayedCards(v'), {v.cards[k]});
      if |PlayedCards(v)| == |v.cards| {
        DistinctWithSeat(v, k, v');
      }
      if DistinctTrickCards(v) {
        assert DistinctTrickCards(v') by {
          forall p, q | p in v'.cards && q in v'.cards && p != q
            ensures v'.cards[p] != v'.cards[q]
          {
            assert v'.cards[p] == v.cards[p] && v'.cards[q] == v.cards[q];
          }
        }
        assert v.cards[k] !in PlayedCards(v') by {
          forall q | q in v'.cards
            ensures v'.cards[q] != v.cards[k]
          {
            assert v'.cards[q] == v.cards[q];
          }
        }
      }
    }
  }

  /** Taking seat `k`'s card off the table takes it out of the table's cards, and nothing else. */
  lemma RemoveSeat(v: TrickView, k: PlayerId, v': TrickView)
    requires k in v.cards && v' == v.(cards := v.cards - {k})
    ensures PlayedCards(v) == PlayedCards(v') + {v.cards[k]}
  {
    forall x | x in PlayedCards(v)
      ensures x in PlayedCards(v') + {v.cards[k]}
    {
      var q := TableCardOf(v, x);
      if q != k { assert v'.cards[q] == x; }
    }
    forall x | x in PlayedCards(v')
      ensures x in PlayedCards(v)
    {
      var q := TableCardOf(v', x);
      assert v.cards[q] == x;
    }
  }

  /** No repeat without seat `k`, and `k`'s card not among the others: no repeat at all. */
  lemma DistinctWithSeat(v: TrickView, k: PlayerId, v': TrickView)
    requires k in v.cards && v' == v.(cards := v.cards - {k})
    requires DistinctTrickCards(v') && v.cards[k] !in PlayedCards(v')
    ensures DistinctTrickCards(v)
  {
    forall p, q | p in v.cards && q in v.cards && p != q
      ensures v.cards[p] != v.cards[q]
    {
      if p != k && q != k {
        assert v'.cards[p] == v.cards[p] && v'.cards[q] == v.cards[q];
      } else if p == k {
        assert v.cards[q] == v'.cards[q] && v'.cards[q] in PlayedCards(v');
      } else {
        assert v.cards[p] == v'.cards[p] && v'.cards[p] in PlayedCards(v');
      }
    }
  }

  /** Counting the cards as one set shows the places apart: the account of a hand in play keeps every card in one place. */
  lemma CountedIsPlaced(h: Hands, v: TrickView, won: set<Card>)
    requires Seats <= h.Keys && v.cards.Keys <= Seats
    requires CardCount(h, v, won) == FULL_DECK_SIZE && |Held(h) + PlayedCards(v) + won| == FULL_DECK_SIZE
    ensures Placed(h, v, won) && DistinctTrickCards(v)
  {
    var held, table := Held(h), PlayedCards(v);
    HeldBound(h);
    PlayedBound(v);
    UnionBound(held, table);
    UnionBound(held + table, won);
    assert held !! table && held + table !! won;
    forall p | p in Seats
      ensures OffHands(h, v, won, p)
    {
      if p in v.cards {
        assert v.cards[p] in table;
      }
    }
    DistinctPairs(v);
  }

  /** A trick without a repeated card has distinct cards seat by seat. */
  lemma DistinctPairs(v: TrickView)
    requires DistinctTrickCards(v)
    ensures NotSame(v, Player1, Player2) && NotSame(v, Player1, Player3) && NotSame(v, Player1, Player4)
    ensures NotSame(v, Player2, Player3) && NotSame(v, Player2, Player4) && NotSame(v, Player3, Player4)
  {
  }

  /** Cards in one place each, counted place by place, are as many as counted as one set. */
  lemma PlacedIsCounted(h: Hands, v: TrickView, won: set<Card>)
    requires Placed(h, v, won)
    ensures |Held(h) + PlayedCards(v) + won| == FULL_DECK_SIZE && DistinctTrickCards(v)
  {
    DistinctFromPairs(v);
    TableOffHands(h, v, won);
    PlayedBound(v);
    HeldSize(h, won);
    SplitUnion(h, PlayedCards(v), won);
    DisjointUnionSize(Held(h), PlayedCards(v));
    DisjointUnionSize(Held(h) + PlayedCards(v), won);
  }

  /** Four hands apart from each other hold as many cards as the four sizes add up to. */
  lemma HeldSize(h: Hands, out: set<Card>)
    requires Split(h, out)
    ensures |Held(h)| == |h[Player1]| + |h[Player2]| + |h[Player3]| + |h[Player4]|
    ensures Held(h) !! out
  {
    DisjointUnionSize(h[Player1], h[Player2]);
    DisjointUnionSize(h[Player1] + h[Player2], h[Player3]);
    DisjointUnionSize(h[Player1] + h[Player2] + h[Player3], h[Player4]);
  }

  /** Hands apart from two sets of cards are apart from their union, and Held(h) from both. */
  lemma SplitUnion(h: Hands, a: set<Card>, b: set<Card>)
    requires Split(h, a) && Split(h, b)
    ensures Split(h, a + b) && Held(h) !! a && Held(h) !! b
  {
  }

  /** A finished hand has scored the whole deck, which is worth 152 points. */
  lemma FinishedAccountScoresAll(h: Hands, won: set<Card>, deck: seq<Card>, trump: Suit)
    requires FinishedAccount(h, won, deck)
    ensures won == AllCards() && PointsOf(won, trump) == 152
  {
    ThirtyTwoIsAll(won);
    PointsOfAllCards(trump);
  }

  // ---- How dealing and playing keep the account ----

  /** A deal from a deck without repetitions starts with empty hands, apart from the top card and the rest. */
  lemma FreshDealApart(deal: seq<Card>, h: Hands, c: Card, deck: seq<Card>)
    requires DistinctCards(deal) && |deal| >= 1
    requires h == EmptyHands && c == deal[0] && deck == deal[1..]
    ensures Apart(h, {c}, deck) && forall p :: p in Seats ==> h[p] == {}
  {
    EmptyHandsFacts();
    DistinctNoRepeats(deal);
  }

  /** The cards kept out of the hands and the deck may be forgotten. */
  lemma NothingOut(h: Hands, out: set<Card>, deck: seq<Card>)
    requires Apart(h, out, deck) && forall p :: p in Seats ==> h[p] == {}
    ensures Apart(h, {}, deck) && forall p :: p in Seats ==> |h[p]| <= NUM_CARDS_PER_PLAYER
  {
  }

  /** The top card of the deck moves to seat `s`. */
  lemma MoveTop(h: Hands, out: set<Card>, deck: seq<Card>, s: PlayerId)
    requires Apart(h, out, deck) && deck != [] && s in Seats
    ensures Apart(h[s := h[s] + {deck[0]}], out, deck[1..])
  {
    var c := deck[0];
    var h' := h[s := h[s] + {c}];
    ElemsTail(deck);
    assert c !in out;
    forall p | p in Seats
      ensures h'[p] !! out && h'[p] !! Elems(deck[1..])
    {
    }
    forall p, q | p in Seats && q in Seats && p != q
      ensures h'[p] !! h'[q]
    {
      assert c !in h[p] && c !in h[q];
    }
  }

  /** In a deck without repetitions, the first `k` cards are apart from the rest. */
  lemma {:induction false} NoRepeatsSplit(d: seq<Card>, k: nat)
    requires NoRepeats(d) && k <= |d|
    ensures Elems(d[..k]) !! Elems(d[k..])
    decreases k
  {
    if k > 0 {
      NoRepeatsSplit(d[1..], k - 1);
      assert d[1..][..k - 1] == d[1..k] && d[1..][k - 1..] == d[k..];
      assert d[..k] == [d[0]] + d[1..k];
      ElemsCons(d[0], d[1..k]);
      NoRepeatsSuffix(d[1..], k - 1);
    } else {
      assert d[..0] == [];
    }
  }

  /** The first `k` cards of the deck move to seat `s`. */
  lemma MoveTopCards(h: Hands, out: set<Card>, deck: seq<Card>, s: PlayerId, k: nat)
    requires Apart(h, out, deck) && s in Seats && k <= |deck|
    ensures Apart(h[s := h[s] + Elems(deck[..k])], out, deck[k..])
  {
    NoRepeatsSplit(deck, k);
    NoRepeatsSuffix(deck, k);
    var top := Elems(deck[..k]);
    assert top <= Elems(deck) by {
      forall x | x in top
        ensures x in Elems(deck)
      {
        var i :| 0 <= i < k && deck[..k][i] == x;
        assert deck[i] == x;
      }
    }
    var h' := h[s := h[s] + top];
    forall p | p in Seats
      ensures h'[p] !! out && h'[p] !! Elems(deck[k..])
    {
    }
    forall p, q | p in Seats && q in Seats && p != q
      ensures h'[p] !! h'[q]
    {
      assert h[p] !! top && h[q] !! top;
    }
  }

  /** Drawing up to `n` cards keeps every card in one place. */
  lemma DrawUntilApart(h: Hands, out: set<Card>, deck: seq<Card>, s: PlayerId, n: nat)
    requires Apart(h, out, deck) && s in Seats
    requires DrawUntil(h[s], deck, n).Some?
    ensures Apart(h[s := DrawUntil(h[s], deck, n).value.held], out, DrawUntil(h[s], deck, n).value.deck)
  {
    var d := DrawUntil(h[s], deck, n).value;
    DrawUntilTakesPrefix(h[s], deck, n);
    var k := |deck| - |d.deck|;
    assert d.held == h[s] + Elems(deck[..k]) && d.deck == deck[k..];
    MoveTopCards(h, out, deck, s, k);
    assert h[s := d.held] == h[s := h[s] + Elems(deck[..k])];
  }

  /** Dealing moves cards from the top of the deck to the hands and keeps every card in one place. */
  lemma {:induction false} DealSeatsApart(h: Hands, out: set<Card>, deck: seq<Card>, seats: seq<PlayerId>, n: nat)
    requires Apart(h, out, deck) && forall i :: 0 <= i < |seats| ==> seats[i] in Seats
    requires DealSeats(h, deck, seats, n).Some?
    ensures Apart(DealSeats(h, deck, seats, n).value.hands, out, DealSeats(h, deck, seats, n).value.deck)
    decreases |seats|
  {
    if seats != [] {
      var d := DrawUntil(h[seats[0]], deck, n).value;
      DrawUntilApart(h, out, deck, seats[0], n);
      DealSeatsApart(h[seats[0] := d.held], out, d.deck, seats[1..], n);
    }
  }

  /** The initial deal keeps the account and gives five cards to each seat. */
  lemma BallotDeal(h: Hands, tableCard: Card, deck: seq<Card>, hands': Hands, deck': seq<Card>)
    requires Apart(h, {tableCard}, deck) && forall p :: p in Seats ==> h[p] == {}
    requires DealSeats(h, deck, SeatOrder, NUM_CARDS_BEFORE_TRUMP) == Some(Dealt(hands', deck'))
    ensures BallotAccount(hands', tableCard, deck')
  {
    EmptyHandsFacts();
    DealSeatsApart(h, {tableCard}, deck, SeatOrder, NUM_CARDS_BEFORE_TRUMP);
    forall p | p in Seats
      ensures |hands'[p]| == NUM_CARDS_BEFORE_TRUMP
    {
      DealSeatsFills(h, deck, SeatOrder, NUM_CARDS_BEFORE_TRUMP, p);
    }
  }

  /** The table card goes to seat `p`: it leaves the table for that seat's hand. */
  lemma TakeTable(h: Hands, tableCard: Card, deck: seq<Card>, p: PlayerId, h': Hands)
    requires BallotAccount(h, tableCard, deck) && p in Seats
    requires h' == h[p := h[p] + {tableCard}]
    ensures Apart(h', {}, deck)
    ensures forall q :: q in Seats ==> |h'[q]| <= NUM_CARDS_PER_PLAYER
  {
    forall q | q in Seats
      ensures h'[q] !! Elems(deck) && |h'[q]| <= NUM_CARDS_PER_PLAYER
    {
    }
    forall a, b | a in Seats && b in Seats && a != b
      ensures h'[a] !! h'[b]
    {
      assert tableCard !in h[a] && tableCard !in h[b];
    }
  }

  /** Four hands of eight cards, apart from each other, hold the whole deck. */
  lemma FullHandsHoldAll(h: Hands, out: set<Card>, deck: seq<Card>)
    requires Apart(h, out, deck)
    requires forall p :: p in Seats ==> |h[p]| == NUM_CARDS_PER_PLAYER
    ensures forall c: Card :: c in Held(h)
  {
    assert h[Player1] !! h[Player2] && h[Player1] !! h[Player3] && h[Player1] !! h[Player4];
    assert h[Player2] !! h[Player3] && h[Player2] !! h[Player4] && h[Player3] !! h[Player4];
    DisjointUnionSize(h[Player1], h[Player2]);
    DisjointUnionSize(h[Player1] + h[Player2], h[Player3]);
    DisjointUnionSize(h[Player1] + h[Player2] + h[Player3], h[Player4]);
    ThirtyTwoIsAll(Held(h));
    AllCardsFacts();
  }

  /** Once the hands hold every card, nothing is left on the table or in the deck. */
  lemma NothingLeft(h: Hands, out: set<Card>, deck: seq<Card>)
    requires Apart(h, out, deck) && forall c: Card :: c in Held(h)
    ensures deck == [] && out == {}
  {
    forall c: Card
      ensures c !in Elems(deck) && c !in out
    {
      HeldCardIsNowhereElse(h, out, deck, c);
    }
    assert Elems(deck) == {} && out == {};
    ElemsSize(deck);
  }

  lemma HeldCardIsNowhereElse(h: Hands, out: set<Card>, deck: seq<Card>, c: Card)
    requires Apart(h, out, deck) && c in Held(h)
    ensures c !in Elems(deck) && c !in out
  {
    assert c in h[Player1] || c in h[Player2] || c in h[Player3] || c in h[Player4];
    assert h[Player1] !! Elems(deck) + out && h[Player2] !! Elems(deck) + out;
    assert h[Player3] !! Elems(deck) + out && h[Player4] !! Elems(deck) + out;
  }

  /**
   * dealCards after the trump is chosen (hand.go:237-254): the hands fill
   * up to eight cards, which takes the whole deck, and play opens on an
   * empty trick with totals of zero and no card scored.
   */
  lemma PlayDeal(h: Hands, deck: seq<Card>, hands': Hands, deck': seq<Card>, v: TrickView, won: set<Card>, totals: map<TeamId, int>)
    requires Apart(h, {}, deck) && forall p :: p in Seats ==> |h[p]| <= NUM_CARDS_PER_PLAYER
    requires DealSeats(h, deck, SeatOrder, NUM_CARDS_PER_PLAYER) == Some(Dealt(hands', deck'))
    requires v.cards == map[] && won == {}
    requires Team1 in totals && Team2 in totals && totals[Team1] + totals[Team2] == 0
    ensures deck' == [] && PlayAccount(hands', v, won, totals)
  {
    FullDeal(h, deck, hands', deck');
    OpenPlay(hands', v, won, totals);
  }

  /** Eight cards in every hand and nothing else dealt: the account of an empty first trick holds. */
  lemma OpenPlay(hands': Hands, v: TrickView, won: set<Card>, totals: map<TeamId, int>)
    requires Apart(hands', {}, [])
    requires |hands'[Player1]| == NUM_CARDS_PER_PLAYER && |hands'[Player2]| == NUM_CARDS_PER_PLAYER
    requires |hands'[Player3]| == NUM_CARDS_PER_PLAYER && |hands'[Player4]| == NUM_CARDS_PER_PLAYER
    requires v.cards == map[] && won == {}
    requires Team1 in totals && Team2 in totals && totals[Team1] + totals[Team2] == 0
    ensures PlayAccount(hands', v, won, totals)
  {
    DeckSize();
    assert Split(hands', won);
    assert TableApart(hands', v, won);
    assert CardCount(hands', v, won) == FULL_DECK_SIZE;
    PlacedIsCounted(hands', v, won);
    assert Even(hands', v.cards.Keys);
    assert PointsOf(won, v.trump) == 0;
  }

  /** Dealing up to eight cards a seat fills every hand and keeps the account. */
  lemma FullDeal(h: Hands, deck: seq<Card>, hands': Hands, deck': seq<Card>)
    requires Apart(h, {}, deck) && forall p :: p in Seats ==> |h[p]| <= NUM_CARDS_PER_PLAYER
    requires DealSeats(h, deck, SeatOrder, NUM_CARDS_PER_PLAYER) == Some(Dealt(hands', deck'))
    ensures deck' == [] && Apart(hands', {}, deck')
    ensures |hands'[Player1]| == NUM_CARDS_PER_PLAYER && |hands'[Player2]| == NUM_CARDS_PER_PLAYER
    ensures |hands'[Player3]| == NUM_CARDS_PER_PLAYER && |hands'[Player4]| == NUM_CARDS_PER_PLAYER
  {
    EmptyHandsFacts();
    DealSeatsApart(h, {}, deck, SeatOrder, NUM_CARDS_PER_PLAYER);
    forall p | p in Seats
      ensures |hands'[p]| == NUM_CARDS_PER_PLAYER
    {
      DealSeatsFills(h, deck, SeatOrder, NUM_CARDS_PER_PLAYER, p);
    }
    FullHandsHoldAll(hands', {}, deck');
    NothingLeft(hands', {}, deck');
  }

  /** A card leaving seat `p`'s hand keeps the hands apart from each other and from the scored cards. */
  lemma SplitAfterPlay(h: Hands, won: set<Card>, p: PlayerId, c: Card, h': Hands)
    requires Split(h, won) && p in Seats && h' == h[p := h[p] - {c}]
    ensures Split(h', won)
  {
    assert h'[Player1] <= h[Player1] && h'[Player2] <= h[Player2];
    assert h'[Player3] <= h[Player3] && h'[Player4] <= h[Player4];
  }

  /** The card `c` of seat `p`'s hand is in no other hand and not among the scored cards. */
  lemma HeldOnce(h: Hands, won: set<Card>, p: PlayerId, c: Card, h': Hands)
    requires Split(h, won) && p in Seats && c in h[p] && h' == h[p := h[p] - {c}]
    ensures c !in h'[Player1] && c !in h'[Player2] && c !in h'[Player3] && c !in h'[Player4] && c !in won
  {
  }

  /** Seat `p` lays the card `c` of its hand: the table stays apart from the hands and the scored cards. */
  lemma TableAfterPlay(h: Hands, v: TrickView, won: set<Card>, p: PlayerId, c: Card, h': Hands, v': TrickView)
    requires Split(h, won) && TableApart(h, v, won) && p in Seats && p !in v.cards && c in h[p]
    requires h' == h[p := h[p] - {c}] && v' == Played(v, p, c)
    ensures TableApart(h', v', won)
  {
    HeldOnce(h, won, p, c, h');
    assert h'[Player1] <= h[Player1] && h'[Player2] <= h[Player2];
    assert h'[Player3] <= h[Player3] && h'[Player4] <= h[Player4];
    forall q | q in Seats
      ensures OffHands(h', v', won, q)
    {
      assert OffHands(h, v, won, q);
    }
    forall a, b | a in Seats && b in Seats && a < b
      ensures NotSame(v', a, b)
    {
      assert NotSame(v, a, b) && OffHands(h, v, won, a) && OffHands(h, v, won, b);
    }
  }

  /** A seat that has not played sheds one card and joins the seats that have. */
  lemma EvenAfterPlay(h: Hands, played: set<PlayerId>, p: PlayerId, c: Card)
    requires Seats <= h.Keys && Even(h, played) && p in Seats && p !in played && c in h[p]
    ensures Even(h[p := h[p] - {c}], played + {p})
  {
    var h' := h[p := h[p] - {c}];
    assert |h'[p]| == |h[p]| - 1;
    forall q | q in Seats
      ensures |h'[q]| + Mark(q, played + {p}) == |h'[Player1]| + Mark(Player1, played + {p})
    {
      assert |h[q]| + Mark(q, played) == |h[Player1]| + Mark(Player1, played);
    }
  }

  /** The seat that plays joins the seats that have played, and every seat has still played as often as the others. */
  lemma EvenAfterCard(h: Hands, v: TrickView, p: PlayerId, c: Card, h': Hands, v': TrickView)
    requires Seats <= h.Keys && Even(h, v.cards.Keys) && p in Seats && p !in v.cards && c in h[p]
    requires h' == h[p := h[p] - {c}] && v' == Played(v, p, c)
    ensures Even(h', v'.cards.Keys) && v'.trump == v.trump
  {
    EvenAfterPlay(h, v.cards.Keys, p, c);
    assert v'.cards.Keys == v.cards.Keys + {p};
  }

  /** A card played from a seat's hand moves to the trick: every card stays in one place and the count stands. */
  lemma PlacedAfterPlay(h: Hands, v: TrickView, won: set<Card>, p: PlayerId, c: Card, h': Hands, v': TrickView)
    requires Placed(h, v, won) && p in Seats && p !in v.cards && c in h[p]
    requires h' == h[p := h[p] - {c}] && v' == Played(v, p, c)
    ensures Placed(h', v', won)
  {
    SplitAfterPlay(h, won, p, c, h');
    TableAfterPlay(h, v, won, p, c, h', v');
    assert v'.cards.Keys == v.cards.Keys + {p};
    assert |h'[p]| == |h[p]| - 1 && |v'.cards| == |v.cards| + 1;
  }

  /** A card played from a seat's hand moves to the trick: the account holds and the trick keeps distinct cards. */
  lemma PlayMovesCard(h: Hands, v: TrickView, won: set<Card>, totals: map<TeamId, int>, p: PlayerId, c: Card, h': Hands, v': TrickView)
    requires PlayAccount(h, v, won, totals) && v.cards.Keys <= Seats && p in Seats && p !in v.cards && c in h[p]
    requires h' == h[p := h[p] - {c}] && v' == Played(v, p, c)
    ensures PlayAccount(h', v', won, totals) && DistinctTrickCards(v')
  {
    CountedIsPlaced(h, v, won);
    PlacedAfterPlay(h, v, won, p, c, h', v');
    EvenAfterCard(h, v, p, c, h', v');
    PlacedIsCounted(h', v', won);
  }

  /**
   * Scoring a finished trick (hand.go:77-83, 195-204) moves its four cards
   * to the scored ones and adds its points to the winner's team: the totals
   * are still the points of the scored cards, and every seat holds as many
   * cards as Player1.
   */
  lemma ScoreMovesTrick(h: Hands, v: TrickView, won: set<Card>, totals: map<TeamId, int>, r: TrickResult)
    requires PlayAccount(h, v, won, totals) && WellFormed(v) && IsFinishedOf(v)
    requires r.points == TrickPoints(v)
    ensures totals[Team1] + totals[Team2] + r.points == PointsOf(PlayedCards(v) + won, v.trump)
    ensures |h[Player2]| == |h[Player1]| && |h[Player3]| == |h[Player1]| && |h[Player4]| == |h[Player1]|
    ensures Split(h, PlayedCards(v) + won) && |PlayedCards(v) + won| == |v.cards| + |won|
  {
    CountedIsPlaced(h, v, won);
    TableOffHands(h, v, won);
    PlayedBound(v);
    DisjointUnionSize(PlayedCards(v), won);
    TrickPointsOfCards(v);
    PointsOfUnion(PlayedCards(v), won, v.trump);
    assert Mark(Player1, v.cards.Keys) == 1 && Mark(Player2, v.cards.Keys) == 1;
    assert Mark(Player3, v.cards.Keys) == 1 && Mark(Player4, v.cards.Keys) == 1;
  }

  /** Scoring the trick Player1 played its last card to ends the hand with every card scored. */
  lemma TrickEndsHand(h: Hands, v: TrickView, won: set<Card>, totals: map<TeamId, int>, r: TrickResult,
                      won': set<Card>, totals': map<TeamId, int>, deck: seq<Card>, trump: Suit)
    requires PlayAccount(h, v, won, totals) && WellFormed(v) && IsFinishedOf(v) && r.points == TrickPoints(v)
    requires |h[Player1]| == 0 && deck == [] && trump == v.trump && won' == PlayedCards(v) + won
    requires Team1 in totals' && Team2 in totals' && totals'[Team1] + totals'[Team2] == totals[Team1] + totals[Team2] + r.points
    ensures FinishedAccount(h, won', deck) && totals'[Team1] + totals'[Team2] == PointsOf(won', trump)
  {
    ScoreMovesTrick(h, v, won, totals, r);
  }

  /** Scoring any other trick moves its cards to the scored ones and opens the next, empty trick. */
  lemma TrickOpensNext(h: Hands, v: TrickView, won: set<Card>, totals: map<TeamId, int>, r: TrickResult,
                       won': set<Card>, totals': map<TeamId, int>, v': TrickView)
    requires PlayAccount(h, v, won, totals) && WellFormed(v) && IsFinishedOf(v) && r.points == TrickPoints(v)
    requires v'.cards == map[] && v'.trump == v.trump && won' == PlayedCards(v) + won
    requires Team1 in totals' && Team2 in totals' && totals'[Team1] + totals'[Team2] == totals[Team1] + totals[Team2] + r.points
    ensures PlayAccount(h, v', won', totals')
  {
    ScoreMovesTrick(h, v, won, totals, r);
    assert TableApart(h, v', won');
    PlacedIsCounted(h, v', won');
  }

  // ---- The books of a hand, stage by stage ----

  /**
   * Where a hand stands as far as its cards go: nothing dealt yet (the
   * cards `out` set aside), the trump ballots on the table card
   * `tableCard`, the last cards about to be dealt, the trick `trick` in
   * play, or finished.
   */
  datatype Stage = Dealing(out: set<Card>) | Balloting(tableCard: Card) | Completing | Playing(trick: TrickView) | Over

  /** The account a hand keeps at each stage, for hands `h`, scored cards `won`, team totals `totals` and the rest of the deck. */
  ghost predicate Account(s: Stage, h: Hands, won: set<Card>, totals: map<TeamId, int>, deck: seq<Card>, trump: Suit)
  {
    Team1 in totals && Team2 in totals
    && match s
       case Dealing(out) =>
         won == {} && totals[Team1] + totals[Team2] == 0 && Apart(h, out, deck)
         && h[Player1] == {} && h[Player2] == {} && h[Player3] == {} && h[Player4] == {}
       case Balloting(c) =>
         won == {} && totals[Team1] + totals[Team2] == 0 && BallotAccount(h, c, deck)
       case Completing =>
         won == {} && totals[Team1] + totals[Team2] == 0 && Apart(h, {}, deck)
         && |h[Player1]| <= NUM_CARDS_PER_PLAYER && |h[Player2]| <= NUM_CARDS_PER_PLAYER
         && |h[Player3]| <= NUM_CARDS_PER_PLAYER && |h[Player4]| <= NUM_CARDS_PER_PLAYER
       case Playing(v) =>
         deck == [] && v.trump == trump && PlayAccount(h, v, won, totals)
       case Over =>
         FinishedAccount(h, won, deck) && totals[Team1] + totals[Team2] == PointsOf(won, trump)
  }

  /** The account of stage `s` holds once `tricks` whole tricks, four cards each, have been scored. */
  ghost predicate Ledger(s: Stage, h: Hands, won: set<Card>, totals: map<TeamId, int>, deck: seq<Card>, trump: Suit, tricks: nat)
  {
    |won| == NUM_PLAYERS * tricks && Account(s, h, won, totals, deck, trump)
  }

  /** The books of a hand balance: its account holds after some number of scored tricks. */
  ghost predicate Balanced(s: Stage, h: Hands, won: set<Card>, totals: map<TeamId, int>, deck: seq<Card>, trump: Suit)
  {
    exists tricks: nat :: Ledger(s, h, won, totals, deck, trump, tricks)
  }

  /** NewHand (hand.go:34-55): empty hands and nothing scored, the first card of a deal without repeats set aside. */
  lemma OpenBooks(deal: seq<Card>, h: Hands, c: Card, deck: seq<Card>, won: set<Card>, totals: map<TeamId, int>, trump: Suit)
    requires DistinctCards(deal) && |deal| >= 1
    requires h == EmptyHands && c == deal[0] && deck == deal[1..] && won == {}
    requires Team1 in totals && Team2 in totals && totals[Team1] == 0 && totals[Team2] == 0
    ensures Balanced(Dealing({c}), h, won, totals, deck, trump)
  {
    FreshDealApart(deal, h, c, deck);
    assert Ledger(Dealing({c}), h, won, totals, deck, trump, 0);
  }

  /** dealInitialCards (hand.go:183-193) opens the ballots with five cards a seat. */
  lemma DealBooks(h: Hands, won: set<Card>, totals: map<TeamId, int>, c: Card, deck: seq<Card>, trump: Suit, h': Hands, deck': seq<Card>)
    requires Balanced(Dealing({c}), h, won, totals, deck, trump)
    requires DealSeats(h, deck, SeatOrder, NUM_CARDS_BEFORE_TRUMP) == Some(Dealt(h', deck'))
    ensures Balanced(Balloting(c), h', won, totals, deck', trump)
  {
    var k: nat :| Ledger(Dealing({c}), h, won, totals, deck, trump, k);
    BallotDeal(h, c, deck, h', deck');
    assert Ledger(Balloting(c), h', won, totals, deck', trump, k);
  }

  /** A Jack on the table (hand.go:57-60) is dealt to nobody: the last cards follow at once. */
  lemma JackBooks(h: Hands, won: set<Card>, totals: map<TeamId, int>, c: Card, deck: seq<Card>, trump: Suit)
    requires Balanced(Dealing({c}), h, won, totals, deck, trump)
    ensures Balanced(Completing, h, won, totals, deck, trump)
  {
    var k: nat :| Ledger(Dealing({c}), h, won, totals, deck, trump, k);
    NothingOut(h, {c}, deck);
    assert Ledger(Completing, h, won, totals, deck, trump, k);
  }

  /** The winning vote of a ballot (hand.go:98-99, 133-134) gives the table card to seat `p`. */
  lemma TakeBooks(h: Hands, won: set<Card>, totals: map<TeamId, int>, c: Card, deck: seq<Card>, trump: Suit, p: PlayerId, h': Hands)
    requires Balanced(Balloting(c), h, won, totals, deck, trump) && p in Seats
    requires h' == h[p := h[p] + {c}]
    ensures Balanced(Completing, h', won, totals, deck, trump)
  {
    var k: nat :| Ledger(Balloting(c), h, won, totals, deck, trump, k);
    TakeTable(h, c, deck, p, h');
    assert Ledger(Completing, h', won, totals, deck, trump, k);
  }

  /** handleTrumpSelected (hand.go:237-242): the last cards are dealt and the empty trick `v` opens play. */
  lemma CompleteBooks(h: Hands, won: set<Card>, totals: map<TeamId, int>, deck: seq<Card>, trump: Suit, h': Hands, deck': seq<Card>, v: TrickView)
    requires Balanced(Completing, h, won, totals, deck, trump)
    requires DealSeats(h, deck, SeatOrder, NUM_CARDS_PER_PLAYER) == Some(Dealt(h', deck'))
    requires v.cards == map[]
    ensures Balanced(Playing(v), h', won, totals, deck', v.trump)
  {
    var k: nat :| Ledger(Completing, h, won, totals, deck, trump, k);
    PlayDeal(h, deck, h', deck', v, won, totals);
    assert Ledger(Playing(v), h', won, totals, deck', v.trump, k);
  }

  /** PlayCard (hand.go:68-75): seat `p` lays card `c` from its hand on the trick, and the trick holds no card twice. */
  lemma PlayBooks(h: Hands, v: TrickView, won: set<Card>, totals: map<TeamId, int>, deck: seq<Card>, trump: Suit,
                  p: PlayerId, c: Card, h': Hands, v': TrickView)
    requires Balanced(Playing(v), h, won, totals, deck, trump) && v.cards.Keys <= Seats
    requires p in Seats && p !in v.cards && c in h[p]
    requires h' == h[p := h[p] - {c}] && v' == Played(v, p, c)
    ensures Balanced(Playing(v'), h', won, totals, deck, trump) && DistinctTrickCards(v')
  {
    var k: nat :| Ledger(Playing(v), h, won, totals, deck, trump, k);
    PlayMovesCard(h, v, won, totals, p, c, h', v');
    assert Ledger(Playing(v'), h', won, totals, deck, trump, k);
  }

  /**
   * handleTrickResult (hand.go:195-204) once Player1 holds no card: the
   * finished trick `v` is scored for team `team` and the hand is over.
   */
  lemma EndBooks(h: Hands, v: TrickView, won: set<Card>, totals: map<TeamId, int>, deck: seq<Card>, trump: Suit,
                 r: TrickResult, team: TeamId, won': set<Card>, totals': map<TeamId, int>)
    requires Balanced(Playing(v), h, won, totals, deck, trump) && (team == Team1 || team == Team2)
    requires WellFormed(v) && IsFinishedOf(v) && r.points == TrickPoints(v) && |h[Player1]| == 0
    requires won' == PlayedCards(v) + won && totals' == totals[team := totals[team] + r.points]
    ensures Balanced(Over, h, won', totals', deck, trump)
  {
    var k: nat :| Ledger(Playing(v), h, won, totals, deck, trump, k);
    assert Team1 in totals' && Team2 in totals' && totals'[Team1] + totals'[Team2] == totals[Team1] + totals[Team2] + r.points;
    ScoreLastTrick(h, v, won, totals, deck, trump, r, won', totals', k);
  }

  /**
   * handleTrickResult (hand.go:195-204) otherwise: the finished trick `v`
   * is scored for team `team` and the empty trick `v'` is in play.
   */
  lemma NextBooks(h: Hands, v: TrickView, won: set<Card>, totals: map<TeamId, int>, deck: seq<Card>, trump: Suit,
                  r: TrickResult, team: TeamId, won': set<Card>, totals': map<TeamId, int>, v': TrickView)
    requires Balanced(Playing(v), h, won, totals, deck, trump) && (team == Team1 || team == Team2)
    requires WellFormed(v) && IsFinishedOf(v) && r.points == TrickPoints(v)
    requires won' == PlayedCards(v) + won && totals' == totals[team := totals[team] + r.points]
    requires v'.cards == map[] && v'.trump == trump
    ensures Balanced(Playing(v'), h, won', totals', deck, trump)
  {
    var k: nat :| Ledger(Playing(v), h, won, totals, deck, trump, k);
    assert Team1 in totals' && Team2 in totals' && totals'[Team1] + totals'[Team2] == totals[Team1] + totals[Team2] + r.points;
    ScoreNextTrick(h, v, won, totals, deck, trump, r, won', totals', k, v');
  }

  /** The trick Player1 laid its last card on ends the hand: a whole trick more is scored. */
  lemma ScoreLastTrick(h: Hands, v: TrickView, won: set<Card>, totals: map<TeamId, int>, deck: seq<Card>, trump: Suit,
                       r: TrickResult, won': set<Card>, totals': map<TeamId, int>, k: nat)
    requires Ledger(Playing(v), h, won, totals, deck, trump, k)
    requires WellFormed(v) && IsFinishedOf(v) && r.points == TrickPoints(v) && |h[Player1]| == 0
    requires won' == PlayedCards(v) + won
    requires Team1 in totals' && Team2 in totals' && totals'[Team1] + totals'[Team2] == totals[Team1] + totals[Team2] + r.points
    ensures Ledger(Over, h, won', totals', deck, trump, k + 1)
  {
    ScoreMovesTrick(h, v, won, totals, r);
    FinishedIffFull(v);
    TrickEndsHand(h, v, won, totals, r, won', totals', deck, trump);
  }

  /** Any other trick scored: a whole trick more is scored and the empty trick `v'` is in play. */
  lemma ScoreNextTrick(h: Hands, v: TrickView, won: set<Card>, totals: map<TeamId, int>, deck: seq<Card>, trump: Suit,
                       r: TrickResult, won': set<Card>, totals': map<TeamId, int>, k: nat, v': TrickView)
    requires Ledger(Playing(v), h, won, totals, deck, trump, k)
    requires WellFormed(v) && IsFinishedOf(v) && r.points == TrickPoints(v)
    requires v'.cards == map[] && v'.trump == trump && won' == PlayedCards(v) + won
    requires Team1 in totals' && Team2 in totals' && totals'[Team1] + totals'[Team2] == totals[Team1] + totals[Team2] + r.points
    ensures Ledger(Playing(v'), h, won', totals', deck, trump, k + 1)
  {
    ScoreMovesTrick(h, v, won, totals, r);
    FinishedIffFull(v);
    TrickOpensNext(h, v, won, totals, r, won', totals', v');
  }

  /** A finished hand has scored every card, and its totals are the 152 points of the deck. */
  lemma FinishedBooks(h: Hands, won: set<Card>, totals: map<TeamId, int>, deck: seq<Card>, trump: Suit)
    requires Balanced(Over, h, won, totals, deck, trump)
    ensures won == AllCards() && Team1 in totals && Team2 in totals && totals[Team1] + totals[Team2] == 152
  {
    var k: nat :| Ledger(Over, h, won, totals, deck, trump, k);
    FinishedAccountScoresAll(h, won, deck, trump);
  }

  /** At every stage the team totals lie between 0 and the 152 points of the whole deck. */
  lemma BalancedTotalsBounded(s: Stage, h: Hands, won: set<Card>, totals: map<TeamId, int>, deck: seq<Card>, trump: Suit)
    requires Balanced(s, h, won, totals, deck, trump)
    ensures Team1 in totals && Team2 in totals && 0 <= totals[Team1] + totals[Team2] <= 152
  {
    var k: nat :| Ledger(s, h, won, totals, deck, trump, k);
    PointsWithinDeck(won, trump);
    match s
    case Playing(v) =>
      assert PlayAccount(h, v, won, totals) && v.trump == trump;
    case Over =>
      assert totals[Team1] + totals[Team2] == PointsOf(won, trump);
    case _ =>
  }

  /** No set of cards is worth more than the whole deck. */
  lemma PointsWithinDeck(cs: set<Card>, trump: Suit)
    ensures PointsOf(cs, trump) <= 152
  {
    AllCardsFacts();
    PointsOfSubset(cs, AllCards(), trump);
    PointsOfAllCards(trump);
  }

  /** A subset is worth no more than the set. */
  lemma PointsOfSubset(a: set<Card>, b: set<Card>, trump: Suit)
    requires a <= b
    ensures PointsOf(a, trump) <= PointsOf(b, trump)
  {
    assert b == a + (b - a);
    PointsOfUnion(a, b - a, trump);
  }
}
