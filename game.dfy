/**
 * The game of game/game.go: a sequence of hands, each started by the next
 * seat round the table, whose totals add up to the team scores until a
 * team reaches the target.
 *
 * Each new hand is dealt from a shuffled deck; the permutation `rand.Perm`
 * would draw is a parameter (`perm` for Start, `nextPerm` for the hand that
 * PlayCard may have to set up), and the deck is the full 32-card one (see
 * FullDeckDeals).  Go's map iteration order in GetTrickResult is PlayCard's
 * `order` parameter, as in Hand.
 */
module Game {
  import opened Wrappers
  import opened Cards
  import opened Players
  import opened GameErrors
  import opened Dealer
  import opened HandDeal
  import opened Trick
  import opened Hand
  import opened CardAccount

  datatype GameState = GameReady | GameInProgress | GameFinished

  /** calculateHandStartingPlayer (game.go:147-149). */
  function CalculateHandStartingPlayer(startingPlayer: PlayerId, handNumber: int): PlayerId
  {
    Player1 + GoRem(startingPlayer - Player1 + handNumber, NUM_PLAYERS)
  }

  /**
   * Hand `n` is started by the seat `n` steps round the table from the
   * game's starting seat: ((start - 1 + n) mod 4) + 1.  Each hand passes the
   * lead to the next seat, and the starting seat comes back every four hands.
   */
  lemma HandStarterRotates(startingPlayer: PlayerId, n: nat)
    requires startingPlayer in Seats
    ensures CalculateHandStartingPlayer(startingPlayer, n) == TurnSeat(startingPlayer, n)
    ensures CalculateHandStartingPlayer(startingPlayer, n) == (startingPlayer - 1 + n) % 4 + 1
    ensures CalculateHandStartingPlayer(startingPlayer, n) in Seats
    ensures CalculateHandStartingPlayer(startingPlayer, 0) == startingPlayer
    ensures CalculateHandStartingPlayer(startingPlayer, n + 1)
      == GetNextPlayerId(CalculateHandStartingPlayer(startingPlayer, n))
    ensures CalculateHandStartingPlayer(startingPlayer, n + NUM_PLAYERS)
      == CalculateHandStartingPlayer(startingPlayer, n)
  {
    TurnSeatFacts(startingPlayer, n);
  }

  /**
   * As written, a hand is dealt from 16 cards (NUM_CARD_VALUES is 4), which
   * never lets NewHand finish its initial deal: every deck the dealer can
   * shuffle makes the hand panic.
   */
  lemma SixteenCardsNeverSupply(perm: seq<int>)
    requires IsPerm(perm, MAX_DECK_SIZE)
    ensures |Shuffled(perm)| == 16 < 1 + NUM_PLAYERS * NUM_CARDS_BEFORE_TRUMP
    ensures !Supplies(Shuffled(perm))
  {
    if Supplies(Shuffled(perm)) {
      SuppliesNeedsCards(Shuffled(perm));
      assert false;
    }
  }

  /** The deck of the next hand is a shuffle of the full 32-card deck that lets the hand be dealt. */
  predicate Deals(perm: seq<int>)
  {
    IsPerm(perm, FULL_DECK_SIZE) && Supplies(Shuffled(perm))
  }

  /**
   * With the full 32-card deck, a shuffle lets a hand be dealt to the end
   * exactly when its top card is not a Jack: after a Jack on the table the
   * four hands would need 32 more cards (hand.go:57-60, 244-254).
   */
  lemma FullDeckDeals(perm: seq<int>)
    requires IsPerm(perm, FULL_DECK_SIZE)
    ensures |Shuffled(perm)| == 32
    ensures Deals(perm) <==> Shuffled(perm)[0].rank != Jack
  {
    var deal := Shuffled(perm);
    FullShuffledContents(perm);
    if deal[0].rank == Jack {
      if Supplies(deal) {
        SuppliesNeedsCards(deal);
        assert false;
      }
    } else {
      DistinctDeckSupplies(deal);
    }
  }

  /** A deck that deals opens the table ballot and gives each seat five consecutive cards. */
  lemma ShuffleDealsInitially(perm: seq<int>)
    requires Deals(perm)
    ensures |Shuffled(perm)| == 32 && Shuffled(perm)[0].rank != Jack
    ensures DealSeats(EmptyHands, Shuffled(perm)[1..], SeatOrder, NUM_CARDS_BEFORE_TRUMP)
      == Some(Dealt(InitialHands(Shuffled(perm)), Shuffled(perm)[21..]))
  {
    FullDeckDeals(perm);
    FullShuffledContents(perm);
    InitialDeal(Shuffled(perm));
  }

  /**
   * The hand NewHand builds from the shuffle `perm`, started by `start`:
   * the table card is the top card and the table ballot is open, nothing is
   * scored, seat p holds the five cards after the first 5(p-1)+1, and the
   * dealer resumes at the 22nd card.
   */
  ghost predicate NewHandFrom(h: Hand, start: PlayerId, perm: seq<int>)
    reads h
  {
    IsPerm(perm, FULL_DECK_SIZE)
    && h.fairDeal && h.won == {}
    && h.startingPlayer == start && h.state == TableTrumpSelection
    && h.totals.Keys == {Team1, Team2} && h.totals[Team1] == 0 && h.totals[Team2] == 0
    && h.tableTrumpCard == Some(Shuffled(perm)[0])
    && h.tableTrumpSelectionStatus == {} && h.freeTrumpSelectionStatus == {}
    && h.playerCards == InitialHands(Shuffled(perm))
    && h.dealer == Shuffled(perm)[21..]
  }

  /** newHand(startingPlayer, dealer) of setupHand (game.go:144), with a dealer that shuffled `perm`. */
  method DealHand(start: PlayerId, perm: seq<int>) returns (h: Hand)
    requires start in Seats && Deals(perm)
    ensures fresh(h) && fresh(h.Repr) && h.Valid() && h.state != HandFinished
    ensures NewHandFrom(h, start, perm)
  {
    var deal := Shuffled(perm);
    ShuffleDealsInitially(perm);
    ShuffledDistinct(perm);
    h := new Hand.NewHand(start, deal);
  }

  /** BeloteGame (game.go:6-14). */
  class BeloteGame {
    var state: GameState
    var scores: map<TeamId, int>
    const startingPlayer: PlayerId
    const targetScore: int
    var currentHand: Hand?
    var handNumber: int

    /**
     * The scores of both teams are never negative, and the game owns its
     * current hand, which is valid and dealt from a deck that repeats no card.
     */
    ghost predicate Core()
      reads this, currentHand, HandRepr()
    {
      Counters() && (currentHand != null ==> currentHand.Valid() && currentHand.fairDeal)
    }

    /** The objects of the current hand: the hand and its trick. */
    ghost function HandRepr(): set<object>
      reads this, currentHand
    {
      if currentHand == null then {} else currentHand.Repr
    }

    /** The scores are never negative, and the hand number counts up from zero. */
    ghost predicate Counters()
      reads this
    {
      scores.Keys == {Team1, Team2} && scores[Team1] >= 0 && scores[Team2] >= 0
      && startingPlayer in Seats && handNumber >= 0
    }

    /** A game in progress has a hand that is not finished yet, and a game that is over has no hand. */
    ghost predicate StateOk()
      reads this, currentHand
    {
      (state == GameInProgress ==> currentHand != null && currentHand.state != HandFinished)
      && (state == GameFinished ==> currentHand == null)
    }

    ghost predicate Valid()
      reads this, currentHand, HandRepr()
    {
      Core() && StateOk()
    }

    /** checkEndCondition (game.go:169-171): a team has reached the target. */
    predicate CheckEndCondition()
      reads this
      requires Team1 in scores && Team2 in scores
    {
      scores[Team1] >= targetScore || scores[Team2] >= targetScore
    }

    /** GetState (game.go:131-133). */
    function GetState(): GameState
      reads this
    {
      state
    }

    /** GetHand (game.go:135-137). */
    function GetHand(): Hand?
      reads this
    {
      currentHand
    }

    /** GetScores (game.go:139-141). */
    function GetScores(): map<TeamId, int>
      reads this
    {
      scores
    }

    /** NewBeloteGame (game.go:75-89). */
    constructor NewBeloteGame()
      ensures Valid()
      ensures state == GameReady && currentHand == null && handNumber == 0
      ensures scores.Keys == {Team1, Team2} && scores[Team1] == 0 && scores[Team2] == 0
      ensures startingPlayer == Player1 && targetScore == TARGET_SCORE
    {
      state := GameReady;
      scores := map[Team1 := 0, Team2 := 0];
      startingPlayer := Player1;
      targetScore := TARGET_SCORE;
      currentHand := null;
      handNumber := 0;
    }

    /** setupHand (game.go:143-145): a new hand, started by the seat whose turn it is to start. */
    method SetupHand(perm: seq<int>)
      requires Counters() && state == GameInProgress && Deals(perm)
      modifies this`currentHand
      ensures Valid() && fresh(currentHand) && fresh(currentHand.Repr)
      ensures NewHandFrom(currentHand, CalculateHandStartingPlayer(startingPlayer, handNumber), perm)
    {
      HandStarterRotates(startingPlayer, handNumber);
      currentHand := DealHand(CalculateHandStartingPlayer(startingPlayer, handNumber), perm);
    }
    /** Start (game.go:91-94): whatever the state, the game is in progress with a new hand. */
    method Start(perm: seq<int>)
      requires Valid() && Deals(perm)
      modifies this`state, this`currentHand
      ensures Valid() && state == GameInProgress
      ensures fresh(currentHand) && fresh(currentHand.Repr)
      ensures NewHandFrom(currentHand, CalculateHandStartingPlayer(startingPlayer, handNumber), perm)
    {
      state := GameInProgress;
      SetupHand(perm);
    }

    /**
     * handleHandEnd (game.go:151-162), once the current hand is finished:
     * each team's score grows by its total in the hand; when a team has
     * reached the target the game is over and has no hand, otherwise the
     * next hand starts with the next seat.
     */
    method HandleHandEnd(nextPerm: seq<int>)
      requires Counters() && state == GameInProgress && Deals(nextPerm)
      requires currentHand != null && currentHand.totals.Keys == {Team1, Team2}
      requires currentHand.totals[Team1] >= 0 && currentHand.totals[Team2] >= 0
      modifies this`scores, this`state, this`currentHand, this`handNumber
      ensures Valid() && (currentHand != null ==> fresh(currentHand.Repr))
      ensures scores.Keys == {Team1, Team2}
      ensures scores[Team1] == old(scores[Team1]) + old(currentHand.totals[Team1])
      ensures scores[Team2] == old(scores[Team2]) + old(currentHand.totals[Team2])
      ensures CheckEndCondition() ==>
        state == GameFinished && currentHand == null && handNumber == old(handNumber)
      ensures !CheckEndCondition() ==>
        state == GameInProgress && handNumber == old(handNumber) + 1 && fresh(currentHand)
        && NewHandFrom(currentHand, CalculateHandStartingPlayer(startingPlayer, handNumber), nextPerm)
    {
      AddHandTotals();
      if CheckEndCondition() {
        EndGame();
        return;
      }
      RefreshHand(nextPerm);
    }

    /** game.go:152-153: each team's score grows by its total in the current hand. */
    method AddHandTotals()
      requires Counters() && currentHand != null && currentHand.totals.Keys == {Team1, Team2}
      requires currentHand.totals[Team1] >= 0 && currentHand.totals[Team2] >= 0
      modifies this`scores
      ensures Counters()
      ensures scores[Team1] == old(scores[Team1]) + currentHand.totals[Team1]
      ensures scores[Team2] == old(scores[Team2]) + currentHand.totals[Team2]
    {
      scores := scores[Team1 := scores[Team1] + currentHand.totals[Team1]];
      scores := scores[Team2 := scores[Team2] + currentHand.totals[Team2]];
    }

    /** game.go:156-157: the game is over and has no hand. */
    method EndGame()
      requires Counters()
      modifies this`state, this`currentHand
      ensures Valid() && state == GameFinished && currentHand == null
    {
      state := GameFinished;
      currentHand := null;
    }

    /** refreshHand (game.go:164-167): the next hand number, and a new hand for it. */
    method RefreshHand(perm: seq<int>)
      requires Counters() && state == GameInProgress && Deals(perm)
      modifies this`handNumber, this`currentHand
      ensures handNumber == old(handNumber) + 1
      ensures Valid() && fresh(currentHand) && fresh(currentHand.Repr)
      ensures NewHandFrom(currentHand, CalculateHandStartingPlayer(startingPlayer, handNumber), perm)
    {
      handNumber := handNumber + 1;
      SetupHand(perm);
    }

    /** The error PlayCard returns, if any. */
    ghost function PlayError(player: PlayerId, card: Card): Option<GameError>
      reads this, currentHand, HandRepr()
      requires Valid()
    {
      if state != GameInProgress then Some(GameNotInProgress)
      else currentHand.PlayError(player, card)
    }

    /**
     * PlayCard (game.go:96-111).  Outside a game in progress the move is
     * refused; otherwise the hand plays the card, and a hand that this card
     * finishes is scored and replaced (or ends the game).  A refused card
     * changes nothing.
     */
    method PlayCard(player: PlayerId, card: Card, order: seq<PlayerId>, nextPerm: seq<int>) returns (err: Option<GameError>)
      requires Valid() && IsSeatOrder(order) && Deals(nextPerm)
      modifies this`scores, this`state, this`currentHand, this`handNumber, HandRepr()
      ensures Valid() && fresh(HandRepr() - old(HandRepr()))
      ensures err == old(PlayError(player, card))
      ensures err.Some? ==> unchanged(this) && unchanged(old(HandRepr()))
      ensures scores[Team1] >= old(scores[Team1]) && scores[Team2] >= old(scores[Team2])
      ensures err.None? ==>
        old(state) == GameInProgress
        && old(currentHand).playerCards == old(currentHand.playerCards)[player := old(currentHand.playerCards)[player] - {card}]
        && DistinctTrickCards(Played(old(currentHand.currentTrick.View()), player, card))
        && old(currentHand).TrickScored(old(currentHand.totals), old(currentHand.won), old(currentHand.currentTrick),
                                        Played(old(currentHand.currentTrick.View()), player, card), order)
      ensures err.None? && old(currentHand).state != HandFinished ==>
        state == GameInProgress && currentHand == old(currentHand)
        && scores == old(scores) && handNumber == old(handNumber)
      ensures err.None? && old(currentHand).state == HandFinished ==>
        scores.Keys == {Team1, Team2} && old(currentHand).totals.Keys == {Team1, Team2}
        && scores[Team1] == old(scores[Team1]) + old(currentHand).totals[Team1]
        && scores[Team2] == old(scores[Team2]) + old(currentHand).totals[Team2]
        && scores[Team1] + scores[Team2] == old(scores[Team1] + scores[Team2]) + 152
        && (CheckEndCondition() ==> state == GameFinished && currentHand == null && handNumber == old(handNumber))
        && (!CheckEndCondition() ==>
              state == GameInProgress && handNumber == old(handNumber) + 1 && fresh(currentHand)
              && NewHandFrom(currentHand, CalculateHandStartingPlayer(startingPlayer, handNumber), nextPerm))
    {
      if state != GameInProgress {
        return Some(GameNotInProgress);
      }
      err := PlayOnHand(player, card, order);
      if err.None? && currentHand.state == HandFinished {
        FinishedHandScoresAll(currentHand);
        HandleHandEnd(nextPerm);
      }
    }

    /** Lines 101-104 of PlayCard: the current hand plays the card. */
    method PlayOnHand(player: PlayerId, card: Card, order: seq<PlayerId>) returns (err: Option<GameError>)
      requires Valid() && state == GameInProgress && IsSeatOrder(order)
      modifies currentHand`playerCards, currentHand`totals, currentHand`state, currentHand`won
      modifies currentHand`currentTrick, currentHand`Repr, currentHand.currentTrick
      ensures Core() && fresh(HandRepr() - old(HandRepr()))
      ensures err == old(currentHand.PlayError(player, card))
      ensures err.Some? ==> unchanged(old(HandRepr()))
      ensures err.None? ==>
        old(currentHand.state) == HandInProgress && old(currentHand.currentTrick) != null
        && currentHand.playerCards == old(currentHand.playerCards)[player := old(currentHand.playerCards)[player] - {card}]
        && DistinctTrickCards(Played(old(currentHand.currentTrick.View()), player, card))
        && currentHand.TrickScored(old(currentHand.totals), old(currentHand.won), old(currentHand.currentTrick),
                                   Played(old(currentHand.currentTrick.View()), player, card), order)
      ensures currentHand.state != HandFinished ==> StateOk()
    {
      err := currentHand.PlayCard(player, card, order);
    }

    /** The error AcceptTableTrump returns, if any. */
    ghost function AcceptError(player: PlayerId): Option<GameError>
      reads this, currentHand, HandRepr()
      requires Valid()
    {
      if state != GameInProgress then Some(GameNotInProgress)
      else currentHand.AcceptError(player)
    }

    /** AcceptTableTrump (game.go:113-119): refused outside a game in progress, otherwise the hand's move. */
    method AcceptTableTrump(player: PlayerId, accept: bool) returns (err: Option<GameError>)
      requires Valid()
      modifies currentHand
      ensures Valid() && fresh(HandRepr() - old(HandRepr()))
      ensures err == old(AcceptError(player))
      ensures err.Some? ==> unchanged(old(HandRepr()))
      ensures unchanged(this)
      ensures err.None? ==>
        old(state) == GameInProgress && old(currentHand.state) == TableTrumpSelection
        && old(currentHand.tableTrumpCard).Some? && player in Seats
        && player == old(TurnSeat(currentHand.startingPlayer, |currentHand.tableTrumpSelectionStatus|))
      ensures err.None? && accept ==>
        currentHand.state == HandInProgress && currentHand.trump == old(currentHand.tableTrumpCard).value.suit
        && currentHand.currentTrick.startingPlayer == currentHand.startingPlayer && currentHand.currentTrick.cards == map[]
        && DealSeats(old(currentHand.WithTableCard(player)), old(currentHand.dealer), SeatOrder, NUM_CARDS_PER_PLAYER)
           == Some(Dealt(currentHand.playerCards, currentHand.dealer))
      ensures err.None? && !accept ==>
        currentHand.tableTrumpSelectionStatus == old(currentHand.tableTrumpSelectionStatus) + {player}
        && currentHand.state == (if |currentHand.tableTrumpSelectionStatus| == NUM_PLAYERS then FreeTrumpSelection else TableTrumpSelection)
        && currentHand.playerCards == old(currentHand.playerCards) && currentHand.dealer == old(currentHand.dealer)
    {
      if state != GameInProgress {
        return Some(GameNotInProgress);
      }
      err := currentHand.AcceptTableTrump(player, accept);
    }

    /** The error SelectTrump returns, if any. */
    ghost function SelectError(player: PlayerId, suit: Option<Suit>): Option<GameError>
      reads this, currentHand, HandRepr()
      requires Valid()
    {
      if state != GameInProgress then Some(GameNotInProgress)
      else currentHand.SelectError(player, suit)
    }

    /** SelectTrump (game.go:121-127): refused outside a game in progress, otherwise the hand's move. */
    method SelectTrump(player: PlayerId, suit: Option<Suit>) returns (err: Option<GameError>)
      requires Valid()
      modifies currentHand
      ensures Valid() && fresh(HandRepr() - old(HandRepr()))
      ensures err == old(SelectError(player, suit))
      ensures err.Some? ==> unchanged(old(HandRepr()))
      ensures unchanged(this)
      ensures err.None? ==>
        old(state) == GameInProgress && old(currentHand.state) == FreeTrumpSelection
        && old(currentHand.tableTrumpCard).Some? && player in Seats
        && player == old(TurnSeat(currentHand.startingPlayer, |currentHand.freeTrumpSelectionStatus|))
      ensures err.None? && suit.Some? ==>
        currentHand.state == HandInProgress && currentHand.trump == suit.value
        && currentHand.trump != old(currentHand.tableTrumpCard).value.suit
        && currentHand.currentTrick.startingPlayer == currentHand.startingPlayer && currentHand.currentTrick.cards == map[]
        && DealSeats(old(currentHand.WithTableCard(player)), old(currentHand.dealer), SeatOrder, NUM_CARDS_PER_PLAYER)
           == Some(Dealt(currentHand.playerCards, currentHand.dealer))
      ensures err.None? && suit.None? ==>
        currentHand.freeTrumpSelectionStatus == old(currentHand.freeTrumpSelectionStatus) + {player}
        && |currentHand.freeTrumpSelectionStatus| < NUM_PLAYERS && player != LastPlayer(currentHand.startingPlayer)
        && currentHand.state == FreeTrumpSelection
        && currentHand.playerCards == old(currentHand.playerCards) && currentHand.dealer == old(currentHand.dealer)
    {
      if state != GameInProgress {
        return Some(GameNotInProgress);
      }
      err := currentHand.SelectTrump(player, suit);
    }
  }
}
