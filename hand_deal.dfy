/**
 * Dealing a hand (game/hand.go:34-66, 183-193, 244-262).  The dealer is a
 * sequence of cards taken from the front; Go panics when it runs dry, so
 * the model states exactly which decks let a hand be dealt to the end.
 */
module HandDeal {
  import opened Wrappers
  import opened Cards
  import opened Players

  /** The card sets of the players, the source's `map[PlayerId]map[Card]bool`. */
  type Hands = map<PlayerId, set<Card>>

  /** makePlayerCards (hand.go:256-262): an empty card set for each seat. */
  const EmptyHands: Hands := map[Player1 := {}, Player2 := {}, Player3 := {}, Player4 := {}]

  /** A player's cards after drawing, and what is left of the deck. */
  datatype Drawn = Drawn(held: set<Card>, deck: seq<Card>)

  /** All hands after dealing, and what is left of the deck. */
  datatype Dealt = Dealt(hands: Hands, deck: seq<Card>)

  /** The set of the cards of a sequence. */
  function Elems(s: seq<Card>): set<Card>
  {
    set c | c in s
  }

  /**
   * The inner loop of dealInitialCards and dealCards: draw from the top of
   * the deck until the player holds `n` different cards.  None when the
   * deck runs dry first, where Go panics.
   */
  function DrawUntil(held: set<Card>, deck: seq<Card>, n: nat): Option<Drawn>
    decreases |deck|
  {
    if |held| >= n then Some(Drawn(held, deck))
    else if deck == [] then None
    else DrawUntil(held + {deck[0]}, deck[1..], n)
  }

  /** The outer loop: each seat of `seats` in turn draws up to `n` cards. */
  function DealSeats(hands: Hands, deck: seq<Card>, seats: seq<PlayerId>, n: nat): (r: Option<Dealt>)
    requires forall i :: 0 <= i < |seats| ==> seats[i] in hands
    ensures r.Some? ==> r.value.hands.Keys == hands.Keys
    decreases |seats|
  {
    if seats == [] then Some(Dealt(hands, deck))
    else match DrawUntil(hands[seats[0]], deck, n)
      case None => None
      case Some(d) => DealSeats(hands[seats[0] := d.held], d.deck, seats[1..], n)
  }

  /** Cards still to draw to bring every seat of `seats` up to `n`. */
  function Need(hands: Hands, seats: seq<PlayerId>, n: nat): nat
    requires forall i :: 0 <= i < |seats| ==> seats[i] in hands
  {
    if seats == [] then 0
    else (if |hands[seats[0]]| >= n then 0 else n - |hands[seats[0]]|) + Need(hands, seats[1..], n)
  }

  predicate DistinctSeats(seats: seq<PlayerId>)
  {
    forall i, j :: 0 <= i < j < |seats| ==> seats[i] != seats[j]
  }

  /**
   * Once the table card goes to seat `p`, dealCards can bring every seat up
   * to eight cards from `deck`.
   */
  predicate CanComplete(hands: Hands, deck: seq<Card>, tableCard: Card)
  {
    hands.Keys == Seats && CompletesFor(hands, deck, tableCard, SeatOrder)
  }

  /** CanComplete for each seat of `seats`, one seat at a time. */
  predicate CompletesFor(hands: Hands, deck: seq<Card>, tableCard: Card, seats: seq<PlayerId>)
    requires hands.Keys == Seats
  {
    seats == []
    || (seats[0] in Seats
        && DealSeats(hands[seats[0] := hands[seats[0]] + {tableCard}], deck, SeatOrder, NUM_CARDS_PER_PLAYER).Some?
        && CompletesFor(hands, deck, tableCard, seats[1..]))
  }

  /** What CanComplete promises for one seat. */
  lemma {:induction false} CompletesAt(hands: Hands, deck: seq<Card>, tableCard: Card, seats: seq<PlayerId>, p: PlayerId)
    requires hands.Keys == Seats && CompletesFor(hands, deck, tableCard, seats) && p in seats && p in Seats
    ensures DealSeats(hands[p := hands[p] + {tableCard}], deck, SeatOrder, NUM_CARDS_PER_PLAYER).Some?
  {
    if seats[0] != p {
      CompletesAt(hands, deck, tableCard, seats[1..], p);
    }
  }

  /** CanComplete holds once the deal completes for every seat. */
  lemma {:induction false} CompletesFromEach(hands: Hands, deck: seq<Card>, tableCard: Card, seats: seq<PlayerId>)
    requires hands.Keys == Seats && forall i :: 0 <= i < |seats| ==> seats[i] in Seats
    requires forall p :: p in Seats ==>
      DealSeats(hands[p := hands[p] + {tableCard}], deck, SeatOrder, NUM_CARDS_PER_PLAYER).Some?
    ensures CompletesFor(hands, deck, tableCard, seats)
  {
    if seats != [] {
      CompletesFromEach(hands, deck, tableCard, seats[1..]);
    }
  }

  /**
   * `deal` lets NewHand run and lets whoever takes the table card get a
   * full hand, so that no DealCard call of the hand panics.
   */
  predicate Supplies(deal: seq<Card>)
  {
    |deal| >= 1
    && if deal[0].rank == Jack then
         DealSeats(EmptyHands, deal[1..], SeatOrder, NUM_CARDS_PER_PLAYER).Some?
       else
         match DealSeats(EmptyHands, deal[1..], SeatOrder, NUM_CARDS_BEFORE_TRUMP)
         case None => false
         case Some(d) => CanComplete(d.hands, d.deck, deal[0])
  }

  /**
   * Drawing takes a prefix of the deck, keeps every held card, and when
   * the player starts with at most `n` cards ends with exactly `n`.
   */
  lemma {:induction false} DrawUntilTakesPrefix(held: set<Card>, deck: seq<Card>, n: nat)
    requires DrawUntil(held, deck, n).Some?
    ensures var d := DrawUntil(held, deck, n).value;
      |d.deck| <= |deck| && d.deck == deck[|deck| - |d.deck|..]
      && d.held == held + Elems(deck[..|deck| - |d.deck|])
    decreases |deck|
  {
    if |held| < n {
      var held' := held + {deck[0]};
      assert DrawUntil(held, deck, n) == DrawUntil(held', deck[1..], n);
      DrawUntilTakesPrefix(held', deck[1..], n);
      var d := DrawUntil(held', deck[1..], n).value;
      PrefixCons(held, deck, |deck| - |d.deck|);
    } else {
      assert deck[..0] == [];
      assert Elems([]) == {};
    }
  }

  /**
   * Drawing ends with at least `n` cards, exactly `n` when the player
   * started with at most `n`, and takes at least the missing number.
   */
  lemma {:induction false} DrawUntilCounts(held: set<Card>, deck: seq<Card>, n: nat)
    requires DrawUntil(held, deck, n).Some?
    ensures var d := DrawUntil(held, deck, n).value;
      |d.deck| <= |deck| && |d.held| >= n && (|held| <= n ==> |d.held| == n)
      && |deck| - |d.deck| + |held| >= n
    decreases |deck|
  {
    if |held| < n {
      var held' := held + {deck[0]};
      assert |held'| <= |held| + 1;
      assert DrawUntil(held, deck, n) == DrawUntil(held', deck[1..], n);
      DrawUntilCounts(held', deck[1..], n);
    }
  }

  lemma ElemsCons(c: Card, s: seq<Card>)
    ensures Elems([c] + s) == {c} + Elems(s)
  {
    assert forall x :: x in [c] + s <==> x == c || x in s;
  }

  /** No card occurs twice in `d`, stated head first so that proofs unfold it one card at a time. */
  predicate NoRepeats(d: seq<Card>)
  {
    d == [] || (d[0] !in Elems(d[1..]) && NoRepeats(d[1..]))
  }

  lemma {:induction false} DistinctNoRepeats(d: seq<Card>)
    requires DistinctCards(d)
    ensures NoRepeats(d)
  {
    if d != [] {
      assert DistinctCards(d[1..]);
      DistinctNoRepeats(d[1..]);
    }
  }

  /** A non-empty sequence's elements are its head and its tail's. */
  lemma ElemsTail(deck: seq<Card>)
    requires deck != []
    ensures Elems(deck) == {deck[0]} + Elems(deck[1..])
  {
    assert deck == [deck[0]] + deck[1..];
    ElemsCons(deck[0], deck[1..]);
  }

  /** A prefix of `deck` of length k is its head followed by a prefix of its tail. */
  lemma PrefixCons(held: set<Card>, deck: seq<Card>, k: nat)
    requires 1 <= k <= |deck|
    ensures (held + {deck[0]}) + Elems(deck[1..][..k - 1]) == held + Elems(deck[..k])
    ensures deck[1..][k - 1..] == deck[k..]
  {
    assert deck[..k] == [deck[0]] + deck[1..][..k - 1];
    ElemsCons(deck[0], deck[1..][..k - 1]);
  }

  /** One draw: a player short of `n` cards takes the top card. */
  lemma DrawStep(held: set<Card>, deck: seq<Card>, n: nat)
    requires |held| < n && deck != []
    ensures DrawUntil(held, deck, n) == DrawUntil(held + {deck[0]}, deck[1..], n)
  {
  }

  /** Drawing from a deck whose cards are new to the player takes exactly the cards missing. */
  lemma {:induction false} DrawUntilFresh(held: set<Card>, deck: seq<Card>, n: nat)
    requires NoRepeats(deck) && held !! Elems(deck)
    requires |held| + |deck| >= n
    ensures var k := if |held| >= n then 0 else n - |held|;
      DrawUntil(held, deck, n) == Some(Drawn(held + Elems(deck[..k]), deck[k..]))
    decreases |deck|
  {
    if |held| < n {
      ElemsTail(deck);
      assert deck[0] !in held;
      assert |held + {deck[0]}| == |held| + 1;
      DrawStep(held, deck, n);
      DrawUntilFresh(held + {deck[0]}, deck[1..], n);
      PrefixCons(held, deck, n - |held|);
    } else {
      assert deck[..0] == [];
      assert Elems([]) == {};
      assert deck[0..] == deck;
    }
  }

  /** Dealing takes a prefix of the deck: what is left is a suffix of it. */
  lemma {:induction false} DealSeatsSuffix(hands: Hands, deck: seq<Card>, seats: seq<PlayerId>, n: nat)
    requires forall i :: 0 <= i < |seats| ==> seats[i] in hands
    requires DealSeats(hands, deck, seats, n).Some?
    ensures var r := DealSeats(hands, deck, seats, n).value;
      |r.deck| <= |deck| && r.deck == deck[|deck| - |r.deck|..]
    decreases |seats|
  {
    if seats != [] {
      var s := seats[0];
      DrawUntilTakesPrefix(hands[s], deck, n);
      var d := DrawUntil(hands[s], deck, n).value;
      var h := hands[s := d.held];
      DealStep(hands, deck, seats, n, d);
      DealSeatsSuffix(h, d.deck, seats[1..], n);
      var r := DealSeats(hands, deck, seats, n).value;
      SuffixOfSuffix(deck, |deck| - |d.deck|, |d.deck| - |r.deck|);
    }
  }

  /** Dealing takes at least Need cards from the deck. */
  lemma {:induction false} DealSeatsNeeds(hands: Hands, deck: seq<Card>, seats: seq<PlayerId>, n: nat)
    requires forall i :: 0 <= i < |seats| ==> seats[i] in hands
    requires DistinctSeats(seats)
    requires DealSeats(hands, deck, seats, n).Some?
    ensures var r := DealSeats(hands, deck, seats, n).value;
      |r.deck| <= |deck| && |deck| - |r.deck| >= Need(hands, seats, n)
    decreases |seats|
  {
    DealSeatsSuffix(hands, deck, seats, n);
    if seats != [] {
      var s := seats[0];
      DrawUntilTakesPrefix(hands[s], deck, n);
      DrawUntilCounts(hands[s], deck, n);
      var d := DrawUntil(hands[s], deck, n).value;
      var h := hands[s := d.held];
      DealStep(hands, deck, seats, n, d);
      SeatsTail(hands, seats, d.held);
      DealSeatsNeeds(h, d.deck, seats[1..], n);
      NeedUnchanged(hands, s, d.held, seats[1..], n);
    }
  }

  /** The facts about the remaining seats that the inductive steps over `seats` use. */
  lemma SeatsTail(hands: Hands, seats: seq<PlayerId>, held: set<Card>)
    requires forall i :: 0 <= i < |seats| ==> seats[i] in hands
    requires DistinctSeats(seats) && seats != []
    ensures DistinctSeats(seats[1..])
    ensures forall i :: 0 <= i < |seats[1..]| ==> seats[1..][i] in hands && seats[1..][i] != seats[0]
    ensures forall i :: 0 <= i < |seats[1..]| ==> seats[1..][i] in hands[seats[0] := held]
  {
    forall i | 0 <= i < |seats[1..]|
      ensures seats[1..][i] != seats[0]
    {
      assert seats[1..][i] == seats[i + 1];
    }
  }

  lemma SuffixOfSuffix(s: seq<Card>, i: nat, j: nat)
    requires i + j <= |s|
    ensures s[i..][j..] == s[i + j..]
  {
  }

  /** Need only looks at the seats it is asked about. */
  lemma {:induction false} NeedUnchanged(hands: Hands, s: PlayerId, held: set<Card>, seats: seq<PlayerId>, n: nat)
    requires forall i :: 0 <= i < |seats| ==> seats[i] in hands && seats[i] != s
    ensures Need(hands[s := held], seats, n) == Need(hands, seats, n)
    decreases |seats|
  {
    if seats != [] {
      NeedUnchanged(hands, s, held, seats[1..], n);
    }
  }

  /** One seat's turn in the outer loop. */
  lemma DealStep(hands: Hands, deck: seq<Card>, seats: seq<PlayerId>, n: nat, d: Drawn)
    requires forall i :: 0 <= i < |seats| ==> seats[i] in hands
    requires seats != [] && DrawUntil(hands[seats[0]], deck, n) == Some(d)
    ensures DealSeats(hands, deck, seats, n) == DealSeats(hands[seats[0] := d.held], d.deck, seats[1..], n)
  {
  }

  /**
   * One pass of the inner dealing loop: while the seat in turn is short of
   * `n` cards and the deal can finish, the deck has a top card, and taking
   * it into that seat's hand leaves the outcome of the deal unchanged.
   */
  lemma DealDrawOne(hands: Hands, deck: seq<Card>, seats: seq<PlayerId>, n: nat)
    requires forall i :: 0 <= i < |seats| ==> seats[i] in hands
    requires seats != [] && |hands[seats[0]]| < n
    requires DealSeats(hands, deck, seats, n).Some?
    ensures deck != []
    ensures DealSeats(hands, deck, seats, n)
      == DealSeats(hands[seats[0] := hands[seats[0]] + {deck[0]}], deck[1..], seats, n)
  {
    var s := seats[0];
    var h2 := hands[s := hands[s] + {deck[0]}];
    DrawStep(hands[s], deck, n);
    var d := DrawUntil(hands[s], deck, n).value;
    assert h2[s] == hands[s] + {deck[0]};
    DealStep(hands, deck, seats, n, d);
    DealStep(h2, deck[1..], seats, n, d);
    assert h2[s := d.held] == hands[s := d.held];
  }

  /** The end of the inner dealing loop: a seat that already holds `n` cards draws nothing. */
  lemma DealSkipFull(hands: Hands, deck: seq<Card>, seats: seq<PlayerId>, n: nat)
    requires forall i :: 0 <= i < |seats| ==> seats[i] in hands
    requires seats != [] && |hands[seats[0]]| >= n
    ensures DealSeats(hands, deck, seats, n) == DealSeats(hands, deck, seats[1..], n)
  {
    assert hands[seats[0] := hands[seats[0]]] == hands;
    DealStep(hands, deck, seats, n, Drawn(hands[seats[0]], deck));
  }

  /** What is left of a deck without repetitions has none either, and no new cards. */
  lemma {:induction false} NoRepeatsSuffix(d: seq<Card>, k: nat)
    requires NoRepeats(d) && k <= |d|
    ensures NoRepeats(d[k..]) && Elems(d[k..]) <= Elems(d)
  {
    if k > 0 {
      ElemsTail(d);
      NoRepeatsSuffix(d[1..], k - 1);
      assert d[1..][k - 1..] == d[k..];
    }
  }

  /**
   * The deal succeeds whenever the deck holds at least Need cards, none of
   * them repeated and none already held by a seat being dealt to.
   */
  lemma {:induction false} DealSeatsFresh(hands: Hands, deck: seq<Card>, seats: seq<PlayerId>, n: nat)
    requires forall i :: 0 <= i < |seats| ==> seats[i] in hands
    requires DistinctSeats(seats) && NoRepeats(deck)
    requires forall i :: 0 <= i < |seats| ==> hands[seats[i]] !! Elems(deck)
    requires |deck| >= Need(hands, seats, n)
    ensures DealSeats(hands, deck, seats, n).Some?
    decreases |seats|
  {
    if seats != [] {
      var s := seats[0];
      DrawUntilFresh(hands[s], deck, n);
      var k := if |hands[s]| >= n then 0 else n - |hands[s]|;
      var d := Drawn(hands[s] + Elems(deck[..k]), deck[k..]);
      DealStep(hands, deck, seats, n, d);
      var h := hands[s := d.held];
      NoRepeatsSuffix(deck, k);
      assert DistinctSeats(seats[1..]);
      forall i | 0 <= i < |seats[1..]|
        ensures h[seats[1..][i]] !! Elems(d.deck)
      {
        assert seats[1..][i] == seats[i + 1] != s;
      }
      NeedUnchanged(hands, s, d.held, seats[1..], n);
      DealSeatsFresh(h, d.deck, seats[1..], n);
    }
  }

  /** The number of different cards in a sequence without repetitions is its length. */
  lemma {:induction false} ElemsSize(s: seq<Card>)
    requires NoRepeats(s)
    ensures |Elems(s)| == |s|
  {
    if s != [] {
      ElemsSize(s[1..]);
      ElemsTail(s);
    }
  }

  /** Where the i-th block of `n` cards starts: i * n, written without multiplication. */
  function Offset(n: nat, i: nat): nat
  {
    if i == 0 then 0 else Offset(n, i - 1) + n
  }

  /** Dealing to `seats` leaves every other seat's cards alone. */
  lemma {:induction false} DealSeatsKeepsOthers(hands: Hands, deck: seq<Card>, seats: seq<PlayerId>, n: nat, p: PlayerId)
    requires forall i :: 0 <= i < |seats| ==> seats[i] in hands
    requires DealSeats(hands, deck, seats, n).Some? && p in hands && p !in seats
    ensures DealSeats(hands, deck, seats, n).value.hands[p] == hands[p]
    decreases |seats|
  {
    if seats != [] {
      var d := DrawUntil(hands[seats[0]], deck, n).value;
      DealStep(hands, deck, seats, n, d);
      DealSeatsKeepsOthers(hands[seats[0] := d.held], d.deck, seats[1..], n, p);
    }
  }

  /** Every seat dealt to that held at most `n` cards ends with exactly `n`. */
  lemma {:induction false} DealSeatsFills(hands: Hands, deck: seq<Card>, seats: seq<PlayerId>, n: nat, p: PlayerId)
    requires forall i :: 0 <= i < |seats| ==> seats[i] in hands
    requires DistinctSeats(seats) && DealSeats(hands, deck, seats, n).Some?
    requires p in seats && |hands[p]| <= n
    ensures |DealSeats(hands, deck, seats, n).value.hands[p]| == n
    decreases |seats|
  {
    var d := DrawUntil(hands[seats[0]], deck, n).value;
    DealStep(hands, deck, seats, n, d);
    var h := hands[seats[0] := d.held];
    if p == seats[0] {
      DrawUntilCounts(hands[p], deck, n);
      assert p !in seats[1..];
      DealSeatsKeepsOthers(h, d.deck, seats[1..], n, p);
    } else {
      assert p in seats[1..];
      assert DistinctSeats(seats[1..]);
      DealSeatsFills(h, d.deck, seats[1..], n, p);
    }
  }

  /** The hands that result from giving each seat of `seats` in turn the next block of `n` cards. */
  function Blocks(hands: Hands, deck: seq<Card>, seats: seq<PlayerId>, n: nat): Hands
    decreases |seats|
  {
    if seats == [] || |deck| < n then hands
    else Blocks(hands[seats[0] := Elems(deck[..n])], deck[n..], seats[1..], n)
  }

  /**
   * Dealing `n` cards to each of `seats`, all empty-handed, from a deck
   * without repetitions gives them the consecutive blocks of `n` cards.
   */
  lemma {:induction false} DealEmptySeats(hands: Hands, deck: seq<Card>, seats: seq<PlayerId>, n: nat)
    requires forall i :: 0 <= i < |seats| ==> seats[i] in hands && hands[seats[i]] == {}
    requires DistinctSeats(seats) && NoRepeats(deck) && |deck| >= Offset(n, |seats|)
    ensures DealSeats(hands, deck, seats, n) == Some(Dealt(Blocks(hands, deck, seats, n), deck[Offset(n, |seats|)..]))
    decreases |seats|
  {
    if seats != [] {
      OffsetShift(n, |seats| - 1);
      DrawUntilFresh({}, deck, n);
      assert {} + Elems(deck[..n]) == Elems(deck[..n]);
      var d := Drawn(Elems(deck[..n]), deck[n..]);
      DealStep(hands, deck, seats, n, d);
      NoRepeatsSuffix(deck, n);
      assert DistinctSeats(seats[1..]);
      DealEmptySeats(hands[seats[0] := d.held], d.deck, seats[1..], n);
      assert d.deck[Offset(n, |seats[1..]|)..] == deck[Offset(n, |seats|)..];
    }
  }

  /** The blocks after the first are the blocks of what the first leaves. */
  lemma {:induction false} OffsetShift(n: nat, i: nat)
    ensures Offset(n, i + 1) == n + Offset(n, i)
  {
    if i > 0 {
      OffsetShift(n, i - 1);
    }
  }

  /** makePlayerCards gives the four seats an empty set each. */
  lemma EmptyHandsFacts()
    ensures EmptyHands.Keys == Seats
    ensures forall p :: p in EmptyHands ==> EmptyHands[p] == {}
    ensures forall i :: 0 <= i < |SeatOrder| ==> SeatOrder[i] in EmptyHands
    ensures DistinctSeats(SeatOrder)
    ensures Need(EmptyHands, SeatOrder, NUM_CARDS_BEFORE_TRUMP) == 20
    ensures Need(EmptyHands, SeatOrder, NUM_CARDS_PER_PLAYER) == 32
  {
    NeedOfSeats(EmptyHands, NUM_CARDS_BEFORE_TRUMP);
    NeedOfSeats(EmptyHands, NUM_CARDS_PER_PLAYER);
  }

  /** Need over the four seats, written out seat by seat. */
  lemma NeedOfSeats(h: Hands, n: nat)
    requires Seats <= h.Keys
    ensures Need(h, SeatOrder, n) == (if |h[Player1]| >= n then 0 else n - |h[Player1]|)
      + (if |h[Player2]| >= n then 0 else n - |h[Player2]|)
      + (if |h[Player3]| >= n then 0 else n - |h[Player3]|)
      + (if |h[Player4]| >= n then 0 else n - |h[Player4]|)
  {
    var c1 := if |h[Player1]| >= n then 0 else n - |h[Player1]|;
    var c2 := if |h[Player2]| >= n then 0 else n - |h[Player2]|;
    var c3 := if |h[Player3]| >= n then 0 else n - |h[Player3]|;
    var c4 := if |h[Player4]| >= n then 0 else n - |h[Player4]|;
    assert [Player4][1..] == [];
    assert Need(h, [Player4], n) == c4;
    assert [Player3, Player4][1..] == [Player4];
    assert Need(h, [Player3, Player4], n) == c3 + c4;
    assert [Player2, Player3, Player4][1..] == [Player3, Player4];
    assert Need(h, [Player2, Player3, Player4], n) == c2 + c3 + c4;
    assert SeatOrder[1..] == [Player2, Player3, Player4];
  }

  /**
   * A hand can only be dealt from a deck of at least 21 cards, and of at
   * least 33 when the first card is a Jack (the table card is not dealt to
   * anyone, and the four hands need 32 more).
   */
  lemma SuppliesNeedsCards(deal: seq<Card>)
    requires Supplies(deal)
    ensures |deal| >= 1 + NUM_PLAYERS * NUM_CARDS_BEFORE_TRUMP
    ensures deal[0].rank == Jack ==> |deal| >= 1 + NUM_PLAYERS * NUM_CARDS_PER_PLAYER
  {
    EmptyHandsFacts();
    if deal[0].rank == Jack {
      DealSeatsNeeds(EmptyHands, deal[1..], SeatOrder, NUM_CARDS_PER_PLAYER);
    } else {
      DealSeatsNeeds(EmptyHands, deal[1..], SeatOrder, NUM_CARDS_BEFORE_TRUMP);
    }
  }

  /**
   * The initial deal from a deck without repetitions: after the table card,
   * the seats 1 to 4 take five cards each, in that order, so seat p holds
   * deal[5p-4 .. 5p] and the deck resumes at deal[21].
   */
  lemma InitialDeal(deal: seq<Card>)
    requires DistinctCards(deal) && |deal| >= 21
    ensures DealSeats(EmptyHands, deal[1..], SeatOrder, NUM_CARDS_BEFORE_TRUMP)
      == Some(Dealt(InitialHands(deal), deal[21..]))
  {
    EmptyHandsFacts();
    var deck := deal[1..];
    assert DistinctCards(deck);
    DistinctNoRepeats(deck);
    assert Offset(5, 4) == 20;
    DealEmptySeats(EmptyHands, deck, SeatOrder, 5);
    InitialBlocks(deal);
    assert deck[20..] == deal[21..];
  }

  /** The four blocks of five cards after the table card are the initial hands. */
  lemma InitialBlocks(deal: seq<Card>)
    requires |deal| >= 21
    ensures Blocks(EmptyHands, deal[1..], SeatOrder, NUM_CARDS_BEFORE_TRUMP) == InitialHands(deal)
  {
    var deck := deal[1..];
    var h1 := EmptyHands[Player1 := Elems(deal[1..6])];
    var h2 := h1[Player2 := Elems(deal[6..11])];
    var h3 := h2[Player3 := Elems(deal[11..16])];
    var h4 := h3[Player4 := Elems(deal[16..21])];
    assert deck[..5] == deal[1..6] && deck[5..] == deal[6..];
    assert Blocks(EmptyHands, deck, SeatOrder, 5) == Blocks(h1, deal[6..], [2, 3, 4], 5);
    assert deal[6..][..5] == deal[6..11] && deal[6..][5..] == deal[11..];
    assert Blocks(h1, deal[6..], [2, 3, 4], 5) == Blocks(h2, deal[11..], [3, 4], 5);
    assert deal[11..][..5] == deal[11..16] && deal[11..][5..] == deal[16..];
    assert Blocks(h2, deal[11..], [3, 4], 5) == Blocks(h3, deal[16..], [4], 5);
    assert deal[16..][..5] == deal[16..21] && deal[16..][5..] == deal[21..];
    assert Blocks(h3, deal[16..], [4], 5) == Blocks(h4, deal[21..], [], 5);
    assert h4 == InitialHands(deal);
  }

  /** Two non-overlapping slices of a deck without repetitions share no card. */
  lemma SlicesDisjoint(d: seq<Card>, a: nat, b: nat, c: nat, e: nat)
    requires DistinctCards(d) && a <= b <= c <= e <= |d|
    ensures Elems(d[a..b]) !! Elems(d[c..e])
  {
    forall x | x in Elems(d[a..b])
      ensures x !in Elems(d[c..e])
    {
      var i :| 0 <= i < b - a && d[a..b][i] == x;
      assert d[a + i] == x;
    }
  }

  /** A slice of a deck without repetitions holds as many different cards as its length. */
  lemma SliceSize(d: seq<Card>, a: nat, b: nat)
    requires DistinctCards(d) && a <= b <= |d|
    ensures |Elems(d[a..b])| == b - a
  {
    assert DistinctCards(d[a..b]);
    DistinctNoRepeats(d[a..b]);
    ElemsSize(d[a..b]);
  }

  /** The hands after the initial deal: five consecutive cards per seat, after the table card. */
  function InitialHands(deal: seq<Card>): Hands
    requires |deal| >= 21
  {
    map[Player1 := Elems(deal[1..6]), Player2 := Elems(deal[6..11]),
        Player3 := Elems(deal[11..16]), Player4 := Elems(deal[16..21])]
  }

  /**
   * In a deck without repetitions, the initial hands hold five cards each,
   * and neither they nor the table card occur in the rest of the deck.
   */
  lemma InitialHandsFacts(deal: seq<Card>)
    requires DistinctCards(deal) && |deal| >= 21
    ensures InitialHands(deal).Keys == Seats
    ensures forall q :: q in Seats ==> |InitialHands(deal)[q]| == 5
    ensures forall q :: q in Seats ==> InitialHands(deal)[q] !! Elems(deal[21..])
    ensures forall q :: q in Seats ==> deal[0] !in InitialHands(deal)[q]
    ensures deal[0] !in Elems(deal[21..]) && NoRepeats(deal[21..])
  {
    SlicesDisjoint(deal, 0, 1, 1, 6);
    SlicesDisjoint(deal, 0, 1, 6, 11);
    SlicesDisjoint(deal, 0, 1, 11, 16);
    SlicesDisjoint(deal, 0, 1, 16, 21);
    SlicesDisjoint(deal, 0, 1, 21, |deal|);
    SlicesDisjoint(deal, 1, 6, 21, |deal|);
    SlicesDisjoint(deal, 6, 11, 21, |deal|);
    SlicesDisjoint(deal, 11, 16, 21, |deal|);
    SlicesDisjoint(deal, 16, 21, 21, |deal|);
    SliceSize(deal, 1, 6);
    SliceSize(deal, 6, 11);
    SliceSize(deal, 11, 16);
    SliceSize(deal, 16, 21);
    assert deal[0..1] == [deal[0]];
    assert deal[0] in Elems(deal[0..1]);
    assert DistinctCards(deal[21..]);
    DistinctNoRepeats(deal[21..]);
  }

  /**
   * After the initial deal from a deck of at least 32 cards without
   * repetitions, whichever seat takes the table card, dealCards completes.
   */
  lemma CompleteAfterTable(deal: seq<Card>, p: PlayerId)
    requires DistinctCards(deal) && |deal| >= 32 && p in Seats
    ensures var h := InitialHands(deal);
      DealSeats(h[p := h[p] + {deal[0]}], deal[21..], SeatOrder, NUM_CARDS_PER_PLAYER).Some?
  {
    var h0 := InitialHands(deal);
    var h := h0[p := h0[p] + {deal[0]}];
    var rest := deal[21..];
    InitialHandsFacts(deal);
    EmptyHandsFacts();
    assert |h[p]| == 6;
    forall i | 0 <= i < |SeatOrder|
      ensures h[SeatOrder[i]] !! Elems(rest)
    {
    }
    NeedAtMost(h, SeatOrder, NUM_CARDS_PER_PLAYER, p);
    DealSeatsFresh(h, rest, SeatOrder, NUM_CARDS_PER_PLAYER);
  }

  /**
   * A deck of at least 32 cards without repetitions and without a Jack on
   * top supplies a hand, whoever takes the table card.
   */
  lemma DistinctDeckSupplies(deal: seq<Card>)
    requires DistinctCards(deal) && |deal| >= 32 && deal[0].rank != Jack
    ensures Supplies(deal)
  {
    InitialDeal(deal);
    InitialCanComplete(deal);
  }

  /** Whichever seat takes the table card after the initial deal, the deal can be completed. */
  lemma InitialCanComplete(deal: seq<Card>)
    requires DistinctCards(deal) && |deal| >= 32
    ensures CanComplete(InitialHands(deal), deal[21..], deal[0])
  {
    var h := InitialHands(deal);
    assert h.Keys == Seats;
    CompleteAfterTableAll(deal);
    CompletesFromEach(h, deal[21..], deal[0], SeatOrder);
  }

  /** CompleteAfterTable for every seat at once. */
  lemma CompleteAfterTableAll(deal: seq<Card>)
    requires DistinctCards(deal) && |deal| >= 32
    ensures var h := InitialHands(deal);
      forall p :: p in Seats ==>
        DealSeats(h[p := h[p] + {deal[0]}], deal[21..], SeatOrder, NUM_CARDS_PER_PLAYER).Some?
  {
    var h := InitialHands(deal);
    forall p | p in Seats
      ensures DealSeats(h[p := h[p] + {deal[0]}], deal[21..], SeatOrder, NUM_CARDS_PER_PLAYER).Some?
    {
      CompleteAfterTable(deal, p);
    }
  }

  /** With five cards at each seat and six at one, the four seats need at most eleven cards to reach eight. */
  lemma NeedAtMost(h: Hands, seats: seq<PlayerId>, n: nat, p: PlayerId)
    requires seats == SeatOrder && n == 8 && p in Seats
    requires h.Keys == Seats
    requires forall q :: q in Seats && q != p ==> |h[q]| == 5
    requires |h[p]| >= 6
    ensures Need(h, seats, n) <= 11
  {
    NeedOfSeats(h, n);
  }
}
