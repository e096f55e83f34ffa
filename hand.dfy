/**
 * One hand of game/hand.go: the two trump ballots (accept the table card,
 * then name a free suit), the eight tricks, and the team totals.
 *
 * The Go dealer is the `dealer` sequence, dealt from the front; the
 * constructor requires a deck that `Supplies` the hand, which is exactly
 * the condition under which no DealCard call of the hand panics.  Go's map
 * iteration order in GetTrickResult is the `order` parameter of PlayCard.
 */
module Hand {
  import opened Wrappers
  import opened Cards
  import opened Players
  import opened GameErrors
  import opened Trick
  import opened HandDeal
  import opened CardAccount

  datatype HandState = TableTrumpSelection | FreeTrumpSelection | HandInProgress | HandFinished

  /** The loop of getCurrentTrumpSelectionTurn from step `i` on: the first seat going round from `start` that has not voted. */
  function FirstUnvoted(start: PlayerId, votes: set<PlayerId>, i: nat): Result<PlayerId, GameError>
    decreases NUM_PLAYERS - i
  {
    if i >= NUM_PLAYERS then Err(AllPlayersSelected)
    else if TurnSeat(start, i) !in votes then Ok(TurnSeat(start, i))
    else FirstUnvoted(start, votes, i + 1)
  }

  /** getCurrentTrumpSelectionTurn (hand.go:210-218). */
  function SelectionTurnOf(start: PlayerId, votes: set<PlayerId>): Result<PlayerId, GameError>
  {
    FirstUnvoted(start, votes, 0)
  }

  lemma {:induction false} FirstUnvotedInTurn(start: PlayerId, votes: set<PlayerId>, i: nat)
    requires start in Seats && InTurn(start, votes) && i <= |votes|
    ensures FirstUnvoted(start, votes, i)
      == if |votes| < NUM_PLAYERS then Ok(TurnSeat(start, |votes|)) else Err(AllPlayersSelected)
    decreases NUM_PLAYERS - i
  {
    if i < |votes| {
      FirstUnvotedInTurn(start, votes, i + 1);
    }
  }

  /**
   * When the votes were cast in turn, the next voter is the seat |votes|
   * steps round from the starting player, and once all four have voted the
   * ballot reports that everybody has.
   */
  lemma SelectionTurnIsNext(start: PlayerId, votes: set<PlayerId>)
    requires start in Seats && InTurn(start, votes)
    ensures |votes| < NUM_PLAYERS ==> SelectionTurnOf(start, votes) == Ok(TurnSeat(start, |votes|))
    ensures |votes| < NUM_PLAYERS ==> TurnSeat(start, |votes|) in Seats - votes
    ensures |votes| == NUM_PLAYERS <==> SelectionTurnOf(start, votes) == Err(AllPlayersSelected)
  {
    FirstUnvotedInTurn(start, votes, 0);
    if |votes| < NUM_PLAYERS {
      InTurnAdd(start, votes);
    }
  }

  /**
   * checkIsTrumpSelectionTurnFor (hand.go:220-235).  Go panics when nobody
   * is left to vote and the player has not voted; the requirement rules
   * that out.
   */
  function TurnCheck(start: PlayerId, votes: set<PlayerId>, player: PlayerId): Option<GameError>
    requires player in votes || SelectionTurnOf(start, votes).Ok?
  {
    if player in votes then Some(AlreadySelected)
    else if SelectionTurnOf(start, votes).value != player then Some(NotSelectionTurn)
    else None
  }

  /** Only the seat whose turn it is may vote; a seat that has voted is told so. */
  lemma TurnCheckIff(start: PlayerId, votes: set<PlayerId>, player: PlayerId)
    requires start in Seats && InTurn(start, votes) && |votes| < NUM_PLAYERS
    ensures SelectionTurnOf(start, votes).Ok?
    ensures TurnCheck(start, votes, player) == None <==> player == TurnSeat(start, |votes|)
    ensures TurnCheck(start, votes, player) == Some(AlreadySelected) <==> player in votes
    ensures TurnCheck(start, votes, player) in {None, Some(AlreadySelected), Some(NotSelectionTurn)}
  {
    SelectionTurnIsNext(start, votes);
  }

  /** getLastPlayer (hand.go:264-266): the seat three steps round from the starting player. */
  function LastPlayer(start: PlayerId): PlayerId
  {
    TurnSeat(start, NUM_PLAYERS - 1)
  }

  /** The last voter sits just before the starting player, and votes fourth. */
  lemma LastPlayerIsPrevious(start: PlayerId)
    requires start in Seats
    ensures LastPlayer(start) == GetPreviousPlayerId(start)
    ensures GetNextPlayerId(LastPlayer(start)) == start
    ensures forall i :: 0 <= i < NUM_PLAYERS - 1 ==> TurnSeat(start, i) != LastPlayer(start)
  {
    TurnSeatsDistinct(start);
  }

  /**
   * The loop of dealInitialCards and dealCards (hand.go:183-193, 244-254):
   * seats 1 to 4 in turn draw from the top of the deck until they hold `n`
   * cards.  The hand's `playerCards` and dealer go in and come out.
   */
  method DealUpTo(hands: Hands, deck: seq<Card>, n: nat) returns (hands': Hands, deck': seq<Card>)
    requires hands.Keys == Seats
    requires DealSeats(hands, deck, SeatOrder, n).Some?
    ensures DealSeats(hands, deck, SeatOrder, n) == Some(Dealt(hands', deck'))
    ensures hands'.Keys == Seats
  {
    hands', deck' := hands, deck;
    ghost var target := DealSeats(hands, deck, SeatOrder, n);
    var player := Player1;
    while player <= Player4
      invariant Player1 <= player <= Player4 + 1
      invariant hands'.Keys == Seats
      invariant DealSeats(hands', deck', SeatOrder[player - 1..], n) == target
      decreases Player4 + 1 - player
    {
      assert SeatOrder[player - 1..][0] == player;
      assert SeatOrder[player - 1..][1..] == SeatOrder[player..];
      while |hands'[player]| < n
        invariant hands'.Keys == Seats
        invariant DealSeats(hands', deck', SeatOrder[player - 1..], n) == target
        decreases |deck'|
      {
        // dealer.DealCard(): `target` is not None, so the deck still has a card here
        DealDrawOne(hands', deck', SeatOrder[player - 1..], n);
        var cardDealt := deck'[0];
        deck' := deck'[1..];
        hands' := hands'[player := hands'[player] + {cardDealt}];
      }
      DealSkipFull(hands', deck', SeatOrder[player - 1..], n);
      player := player + 1;
    }
  }

  /**
   * The totals `after` are `before` with `points` added to `team`'s total
   * (hand.go:196): the same teams, the other team's total as it was.
   */
  ghost predicate Credited(after: map<TeamId, int>, before: map<TeamId, int>, team: TeamId, points: int)
  {
    after.Keys == before.Keys && Team1 in before && Team2 in before
    && after[Team1] == before[Team1] + (if team == Team1 then points else 0)
    && after[Team2] == before[Team2] + (if team == Team2 then points else 0)
  }

  /** Hand (hand.go:5-19). */
  class Hand {
    var state: HandState
    var currentTrick: Trick?
    const startingPlayer: PlayerId
    var totals: map<TeamId, int>
    var playerCards: Hands
    var tableTrumpCard: Option<Card>
    var tableTrumpSelectionStatus: set<PlayerId>
    var freeTrumpSelectionStatus: set<PlayerId>
    var trump: Suit
    var dealer: seq<Card>
    ghost var Repr: set<object>
    /** The dealer never repeats a card; the card account below is kept for such a dealer. */
    ghost const fairDeal: bool
    /** The cards of the tricks scored so far, which the Go code does not keep. */
    ghost var won: set<Card>

    /** The frame and the fields every state shares. */
    ghost predicate Core()
      reads this
    {
      this in Repr
      && (currentTrick != null ==> currentTrick in Repr)
      && (forall o :: o in Repr ==> o == this || o == currentTrick)
      && startingPlayer in Seats
      && totals.Keys == {Team1, Team2} && totals[Team1] >= 0 && totals[Team2] >= 0
      && playerCards.Keys == Seats
    }

    /**
     * The states of a hand: during the table ballot the seats that passed
     * voted in turn and the deal can still be completed whoever takes the
     * card; the free ballot follows four passes; in play the current trick
     * is unfinished and has the hand's trump.
     */
    ghost predicate Valid()
      reads this, Repr
    {
      Core() && StateOk() && Conserved()
    }

    /**
     * The card account, for a dealer that never repeats a card.  During the
     * ballots each seat holds five cards, apart from each other, the table
     * card and the deck, and nothing is scored.  In play the deck is used
     * up and each of the 32 cards is in exactly one place: a seat's hand,
     * the current trick or the scored cards; every seat has played as often
     * as the others, and the team totals are the points of the scored
     * cards.  A finished hand has scored every card.
     */
    ghost predicate Conserved()
      reads this`state, this`playerCards, this`dealer, this`won, this`totals, this`trump
      reads this`tableTrumpCard, this`currentTrick, currentTrick
    {
      fairDeal ==>
        match state
        case HandInProgress => currentTrick != null && Balanced(Playing(currentTrick.View()), playerCards, won, totals, dealer, trump)
        case HandFinished => Balanced(Over, playerCards, won, totals, dealer, trump)
        case _ => tableTrumpCard.Some? && Balanced(Balloting(tableTrumpCard.value), playerCards, won, totals, dealer, trump)
    }

    /** The trump is chosen and the last cards are about to be dealt: no seat holds more than eight, nothing scored. */
    ghost predicate ReadyToPlay()
      reads this`playerCards, this`dealer, this`won, this`totals, this`trump
    {
      Balanced(Completing, playerCards, won, totals, dealer, trump)
    }

    /** The facts specific to the current state. */
    ghost predicate StateOk()
      reads this, currentTrick
    {
      match state
         case TableTrumpSelection =>
           currentTrick == null && tableTrumpCard.Some?
           && InTurn(startingPlayer, tableTrumpSelectionStatus)
           && |tableTrumpSelectionStatus| < NUM_PLAYERS
           && freeTrumpSelectionStatus == {}
           && CanComplete(playerCards, dealer, tableTrumpCard.value)
         case FreeTrumpSelection =>
           currentTrick == null && tableTrumpCard.Some?
           && tableTrumpSelectionStatus == Seats
           && InTurn(startingPlayer, freeTrumpSelectionStatus)
           && |freeTrumpSelectionStatus| < NUM_PLAYERS
           && CanComplete(playerCards, dealer, tableTrumpCard.value)
         case HandInProgress =>
           currentTrick != null && currentTrick.Valid() && currentTrick.trump == trump
           && !IsFinishedOf(currentTrick.View())
         case HandFinished =>
           currentTrick != null && currentTrick.Valid() && currentTrick.trump == trump
    }

    /** The cards of `player`; Go reads a missing entry of the map as the empty set. */
    function HeldBy(player: PlayerId): set<Card>
      reads this
    {
      if player in playerCards then playerCards[player] else {}
    }

    /** The hands once `player` takes the table card. */
    function WithTableCard(player: PlayerId): (r: Hands)
      reads this
      requires tableTrumpCard.Some?
      ensures r.Keys == playerCards.Keys + {player}
    {
      playerCards[player := HeldBy(player) + {tableTrumpCard.value}]
    }

    /** The error AcceptTableTrump returns, if any. */
    ghost function AcceptError(player: PlayerId): Option<GameError>
      reads this, Repr
      requires Valid()
    {
      if state != TableTrumpSelection then Some(TableTrumpSelectionNotInProgress)
      else
        SelectionTurnIsNext(startingPlayer, tableTrumpSelectionStatus);
        TurnCheck(startingPlayer, tableTrumpSelectionStatus, player)
    }

    /** The error SelectTrump returns, if any; `None` for `suit` is Go's nil, a pass. */
    ghost function SelectError(player: PlayerId, suit: Option<Suit>): Option<GameError>
      reads this, Repr
      requires Valid()
    {
      if state != FreeTrumpSelection then Some(FreeTrumpSelectionNotInProgress)
      else
        SelectionTurnIsNext(startingPlayer, freeTrumpSelectionStatus);
        var turn := TurnCheck(startingPlayer, freeTrumpSelectionStatus, player);
        if turn.Some? then turn
        else if player == LastPlayer(startingPlayer) && suit.None? then Some(LastPlayerMustChoose)
        else if suit.None? then None
        else if suit.value == tableTrumpCard.value.suit then Some(SameSuitAsTableTrump)
        else None
    }

    /** The error PlayCard returns, if any. */
    ghost function PlayError(player: PlayerId, card: Card): Option<GameError>
      reads this, Repr
      requires Valid()
    {
      if state != HandInProgress then Some(HandNotInProgress)
      else PlayCardError(currentTrick.View(), player, card, HeldBy(player))
    }

    /** GetCurrentTurn (hand.go:168-181), as a function of the state. */
    ghost function CurrentTurn(): Result<PlayerId, GameError>
      reads this, Repr
      requires Valid()
    {
      match state
      case TableTrumpSelection => SelectionTurnOf(startingPlayer, tableTrumpSelectionStatus)
      case FreeTrumpSelection => SelectionTurnOf(startingPlayer, freeTrumpSelectionStatus)
      case HandInProgress => CurrentTurnOf(currentTrick.View())
      case HandFinished => Err(HandIsFinished)
    }

    /** handleTrumpSelected (hand.go:237-242): fix the trump, open the first trick and finish the deal. */
    method HandleTrumpSelected(t: Suit)
      requires Core() && DealSeats(playerCards, dealer, SeatOrder, NUM_CARDS_PER_PLAYER).Some?
      requires fairDeal ==> ReadyToPlay()
      modifies this`trump, this`state, this`currentTrick, this`Repr, this`playerCards, this`dealer
      ensures Valid() && fresh(currentTrick)
      ensures state == HandInProgress && trump == t && Repr == {this, currentTrick}
      ensures currentTrick.startingPlayer == startingPlayer && currentTrick.cards == map[]
      ensures Dealt(playerCards, dealer) == DealSeats(old(playerCards), old(dealer), SeatOrder, NUM_CARDS_PER_PLAYER).value
    {
      ghost var h, d, t0 := playerCards, dealer, trump;
      StartPlay(t);
      playerCards, dealer := DealUpTo(playerCards, dealer, NUM_CARDS_PER_PLAYER);
      if fairDeal {
        CompleteBooks(h, won, totals, d, t0, playerCards, dealer, currentTrick.View());
      }
    }

    /** The first half of handleTrumpSelected (hand.go:238-240): `t` is trump and the starting player leads the first trick. */
    method StartPlay(t: Suit)
      requires Core()
      modifies this`trump, this`state, this`currentTrick, this`Repr
      ensures Core() && fresh(currentTrick) && currentTrick.Valid() && currentTrick.trump == t
      ensures state == HandInProgress && trump == t && Repr == {this, currentTrick}
      ensures currentTrick.startingPlayer == startingPlayer && currentTrick.cards == map[]
    {
      trump := t;
      state := HandInProgress;
      currentTrick := new Trick.NewTrick(startingPlayer, trump);
      Repr := {this, currentTrick};
    }

    /**
     * The winning vote of either ballot (hand.go:98-99, 133-134): the
     * player takes the table card and `t` becomes trump.
     */
    method TakeTableCard(player: PlayerId, t: Suit)
      requires Core() && tableTrumpCard.Some? && player in Seats
      requires CanComplete(playerCards, dealer, tableTrumpCard.value)
      requires fairDeal ==> Balanced(Balloting(tableTrumpCard.value), playerCards, won, totals, dealer, trump)
      modifies this`trump, this`state, this`currentTrick, this`Repr, this`playerCards, this`dealer
      ensures Valid() && fresh(currentTrick)
      ensures state == HandInProgress && trump == t && Repr == {this, currentTrick}
      ensures currentTrick.startingPlayer == startingPlayer && currentTrick.cards == map[]
      ensures DealSeats(old(WithTableCard(player)), old(dealer), SeatOrder, NUM_CARDS_PER_PLAYER) == Some(Dealt(playerCards, dealer))
    {
      CompletesAt(playerCards, dealer, tableTrumpCard.value, SeatOrder, player);
      ghost var h := playerCards;
      playerCards := playerCards[player := playerCards[player] + {tableTrumpCard.value}];
      if fairDeal {
        TakeBooks(h, won, totals, tableTrumpCard.value, dealer, trump, player, playerCards);
      }
      HandleTrumpSelected(t);
    }

    /**
     * NewHand (hand.go:34-66).  The first card goes to the table; a Jack
     * becomes trump at once and the full hands are dealt, otherwise each
     * seat gets five cards and the table ballot opens.
     */
    constructor NewHand(startingPlayer: PlayerId, deal: seq<Card>)
      requires startingPlayer in Seats && Supplies(deal)
      ensures Valid() && fresh(Repr)
      ensures this.startingPlayer == startingPlayer
      ensures totals.Keys == {Team1, Team2} && totals[Team1] == 0 && totals[Team2] == 0
      ensures tableTrumpSelectionStatus == {} && freeTrumpSelectionStatus == {}
      ensures fairDeal == DistinctCards(deal) && won == {}
      ensures deal[0].rank == Jack ==>
        state == HandInProgress && trump == deal[0].suit && tableTrumpCard == None
        && currentTrick.startingPlayer == startingPlayer && currentTrick.cards == map[]
        && Dealt(playerCards, dealer) == DealSeats(EmptyHands, deal[1..], SeatOrder, NUM_CARDS_PER_PLAYER).value
      ensures deal[0].rank != Jack ==>
        state == TableTrumpSelection && trump == Spades && tableTrumpCard == Some(deal[0])
        && currentTrick == null
        && Dealt(playerCards, dealer) == DealSeats(EmptyHands, deal[1..], SeatOrder, NUM_CARDS_BEFORE_TRUMP).value
    {
      // dealer.DealCard(): Supplies(deal) guarantees a first card
      var tableCard := deal[0];
      // dealCards after a Jack, dealInitialCards otherwise; the Jack goes to no one
      var hands, rest := DealUpTo(EmptyHands, deal[1..], if tableCard.rank == Jack then NUM_CARDS_PER_PLAYER else NUM_CARDS_BEFORE_TRUMP);
      this.startingPlayer := startingPlayer;
      totals := map[Team1 := 0, Team2 := 0];
      tableTrumpSelectionStatus := {};
      freeTrumpSelectionStatus := {};
      fairDeal := DistinctCards(deal);
      won := {};
      playerCards, dealer := hands, rest;
      if tableCard.rank == Jack {
        // handleTrumpSelected: the Jack's suit is trump and the first trick opens
        var t := new Trick.NewTrick(startingPlayer, tableCard.suit);
        state, trump, tableTrumpCard, currentTrick, Repr := HandInProgress, tableCard.suit, None, t, {this, t};
      } else {
        state, trump, tableTrumpCard, currentTrick, Repr := TableTrumpSelection, Spades, Some(tableCard), null, {this};
      }
      new;
      OpeningValid(deal);
    }

    /** A hand as NewHand leaves it is valid, and keeps the card account of a fair deck. */
    lemma OpeningValid(deal: seq<Card>)
      requires Supplies(deal) && startingPlayer in Seats
      requires totals == map[Team1 := 0, Team2 := 0] && won == {} && fairDeal == DistinctCards(deal)
      requires tableTrumpSelectionStatus == {} && freeTrumpSelectionStatus == {}
      requires deal[0].rank == Jack ==>
        state == HandInProgress && trump == deal[0].suit && tableTrumpCard == None
        && currentTrick != null && Repr == {this, currentTrick} && currentTrick.Valid() && currentTrick.trump == trump
        && currentTrick.startingPlayer == startingPlayer && currentTrick.cards == map[]
        && Dealt(playerCards, dealer) == DealSeats(EmptyHands, deal[1..], SeatOrder, NUM_CARDS_PER_PLAYER).value
      requires deal[0].rank != Jack ==>
        state == TableTrumpSelection && trump == Spades && tableTrumpCard == Some(deal[0])
        && currentTrick == null && Repr == {this}
        && Dealt(playerCards, dealer) == DealSeats(EmptyHands, deal[1..], SeatOrder, NUM_CARDS_BEFORE_TRUMP).value
      ensures Valid()
    {
      EmptyHandsFacts();
      if fairDeal {
        OpenBooks(deal, EmptyHands, deal[0], deal[1..], won, totals, Spades);
        if deal[0].rank == Jack {
          JackBooks(EmptyHands, won, totals, deal[0], deal[1..], Spades);
          CompleteBooks(EmptyHands, won, totals, deal[1..], Spades, playerCards, dealer, currentTrick.View());
        } else {
          DealBooks(EmptyHands, won, totals, deal[0], deal[1..], Spades, playerCards, dealer);
        }
      }
    }

    /** getCurrentTrumpSelectionTurn (hand.go:210-218). */
    method GetCurrentTrumpSelectionTurn(selections: set<PlayerId>) returns (r: Result<PlayerId, GameError>)
      ensures r == SelectionTurnOf(startingPlayer, selections)
    {
      for i := 0 to NUM_PLAYERS
        invariant FirstUnvoted(startingPlayer, selections, i) == SelectionTurnOf(startingPlayer, selections)
      {
        var player := Player1 + GoRem(startingPlayer - Player1 + i, NUM_PLAYERS);
        if player !in selections {
          return Ok(player);
        }
      }
      return Err(AllPlayersSelected);
    }

    /** checkIsTrumpSelectionTurnFor (hand.go:220-235). */
    method CheckIsTrumpSelectionTurnFor(player: PlayerId, selections: set<PlayerId>) returns (err: Option<GameError>)
      requires player in selections || SelectionTurnOf(startingPlayer, selections).Ok?
      ensures err == TurnCheck(startingPlayer, selections, player)
    {
      if player in selections {
        return Some(AlreadySelected);
      }
      var currentPlayer := GetCurrentTrumpSelectionTurn(selections);
      if player != currentPlayer.value {
        return Some(NotSelectionTurn);
      }
      return None;
    }

    /**
     * AcceptTableTrump (hand.go:88-109).  Accepting gives the table card to
     * the player and makes its suit trump; passing records the vote, and the
     * fourth pass opens the free ballot.  A refused call changes nothing.
     */
    method AcceptTableTrump(player: PlayerId, accept: bool) returns (err: Option<GameError>)
      requires Valid()
      modifies this`playerCards, this`dealer, this`trump, this`state, this`currentTrick, this`Repr
      modifies this`tableTrumpSelectionStatus
      ensures Valid() && fresh(Repr - old(Repr))
      ensures err == old(AcceptError(player))
      ensures err.Some? ==> unchanged(this)
      ensures err.None? ==>
        old(state) == TableTrumpSelection && old(tableTrumpCard).Some?
        && player == old(TurnSeat(startingPlayer, |tableTrumpSelectionStatus|)) && player in Seats
      ensures err.None? && accept ==>
        state == HandInProgress && trump == old(tableTrumpCard).value.suit
        && fresh(currentTrick) && currentTrick.startingPlayer == startingPlayer && currentTrick.cards == map[]
        && DealSeats(old(WithTableCard(player)), old(dealer), SeatOrder, NUM_CARDS_PER_PLAYER) == Some(Dealt(playerCards, dealer))
        && tableTrumpSelectionStatus == old(tableTrumpSelectionStatus)
      ensures err.None? && !accept ==>
        tableTrumpSelectionStatus == old(tableTrumpSelectionStatus) + {player}
        && state == (if |tableTrumpSelectionStatus| == NUM_PLAYERS then FreeTrumpSelection else TableTrumpSelection)
        && currentTrick == null
        && unchanged(this`playerCards, this`dealer, this`trump, this`currentTrick, this`Repr)
    {
      err := CheckAcceptTableTrump(player);
      if err.Some? {
        return;
      }
      if accept {
        TakeTableCard(player, tableTrumpCard.value.suit);
      } else {
        RecordTablePass(player);
      }
    }

    /** The checks of AcceptTableTrump (hand.go:89-95), which change nothing: the table ballot is open and it is the player's turn. */
    method CheckAcceptTableTrump(player: PlayerId) returns (err: Option<GameError>)
      requires Valid()
      ensures err == AcceptError(player)
      ensures err.None? ==>
        state == TableTrumpSelection && player == TurnSeat(startingPlayer, |tableTrumpSelectionStatus|)
        && player in Seats && player !in tableTrumpSelectionStatus
    {
      if state != TableTrumpSelection {
        return Some(TableTrumpSelectionNotInProgress);
      }
      SelectionTurnIsNext(startingPlayer, tableTrumpSelectionStatus);
      err := CheckIsTrumpSelectionTurnFor(player, tableTrumpSelectionStatus);
      if err.Some? {
        return;
      }
      TurnCheckIff(startingPlayer, tableTrumpSelectionStatus, player);
    }

    /** A pass in the table ballot (hand.go:103-106); the fourth pass opens the free ballot. */
    method RecordTablePass(player: PlayerId)
      requires Valid() && state == TableTrumpSelection
      requires player == TurnSeat(startingPlayer, |tableTrumpSelectionStatus|) && player !in tableTrumpSelectionStatus
      modifies this`tableTrumpSelectionStatus, this`state
      ensures Valid()
      ensures tableTrumpSelectionStatus == old(tableTrumpSelectionStatus) + {player}
      ensures state == (if |tableTrumpSelectionStatus| == NUM_PLAYERS then FreeTrumpSelection else TableTrumpSelection)
    {
      InTurnAdd(startingPlayer, tableTrumpSelectionStatus);
      tableTrumpSelectionStatus := tableTrumpSelectionStatus + {player};
      if |tableTrumpSelectionStatus| == NUM_PLAYERS {
        InTurnFull(startingPlayer, tableTrumpSelectionStatus);
        state := FreeTrumpSelection;
      }
    }

    /** A pass in the free ballot (hand.go:124-126), which the last seat may not make. */
    method RecordFreePass(player: PlayerId)
      requires Valid() && state == FreeTrumpSelection
      requires player == TurnSeat(startingPlayer, |freeTrumpSelectionStatus|) && player !in freeTrumpSelectionStatus
      requires player != LastPlayer(startingPlayer)
      modifies this`freeTrumpSelectionStatus
      ensures Valid()
      ensures freeTrumpSelectionStatus == old(freeTrumpSelectionStatus) + {player}
      ensures |freeTrumpSelectionStatus| < NUM_PLAYERS
    {
      InTurnAdd(startingPlayer, freeTrumpSelectionStatus);
      LastPlayerIsPrevious(startingPlayer);
      freeTrumpSelectionStatus := freeTrumpSelectionStatus + {player};
    }

    /**
     * SelectTrump (hand.go:111-136).  A pass is recorded, except from the
     * last voter, who must name a suit; the table card's suit cannot be
     * named; naming another suit gives the table card to the player and makes
     * that suit trump.  A refused call changes nothing.
     */
    method SelectTrump(player: PlayerId, suit: Option<Suit>) returns (err: Option<GameError>)
      requires Valid()
      modifies this`playerCards, this`dealer, this`trump, this`state, this`currentTrick, this`Repr
      modifies this`freeTrumpSelectionStatus
      ensures Valid() && fresh(Repr - old(Repr))
      ensures err == old(SelectError(player, suit))
      ensures err.Some? ==> unchanged(this)
      ensures err.None? ==>
        old(state) == FreeTrumpSelection && old(tableTrumpCard).Some?
        && player == old(TurnSeat(startingPlayer, |freeTrumpSelectionStatus|)) && player in Seats
      ensures err.None? && suit.Some? ==>
        state == HandInProgress && trump == suit.value && trump != old(tableTrumpCard).value.suit
        && fresh(currentTrick) && currentTrick.startingPlayer == startingPlayer && currentTrick.cards == map[]
        && DealSeats(old(WithTableCard(player)), old(dealer), SeatOrder, NUM_CARDS_PER_PLAYER) == Some(Dealt(playerCards, dealer))
        && freeTrumpSelectionStatus == old(freeTrumpSelectionStatus)
      ensures err.None? && suit.None? ==>
        freeTrumpSelectionStatus == old(freeTrumpSelectionStatus) + {player}
        && |freeTrumpSelectionStatus| < NUM_PLAYERS && player != LastPlayer(startingPlayer)
        && state == FreeTrumpSelection && currentTrick == null
        && unchanged(this`playerCards, this`dealer, this`trump, this`currentTrick, this`Repr)
    {
      err := CheckSelectTrump(player, suit);
      if err.Some? {
        return;
      }
      if suit.None? {
        RecordFreePass(player);
      } else {
        TakeTableCard(player, suit.value);
      }
    }

    /**
     * The checks of SelectTrump (hand.go:112-122, 129-131), which change
     * nothing: the free ballot is open, it is the player's turn, the last
     * seat does not pass and a named suit is not the table card's.
     */
    method CheckSelectTrump(player: PlayerId, suit: Option<Suit>) returns (err: Option<GameError>)
      requires Valid()
      ensures err == SelectError(player, suit)
      ensures err.None? ==>
        state == FreeTrumpSelection && player == TurnSeat(startingPlayer, |freeTrumpSelectionStatus|)
        && player in Seats && player !in freeTrumpSelectionStatus
        && (suit.None? ==> player != LastPlayer(startingPlayer))
    {
      if state != FreeTrumpSelection {
        return Some(FreeTrumpSelectionNotInProgress);
      }
      SelectionTurnIsNext(startingPlayer, freeTrumpSelectionStatus);
      err := CheckIsTrumpSelectionTurnFor(player, freeTrumpSelectionStatus);
      if err.Some? {
        return;
      }
      TurnCheckIff(startingPlayer, freeTrumpSelectionStatus, player);
      if player == LastPlayer(startingPlayer) && suit.None? {
        return Some(LastPlayerMustChoose);
      }
      if suit.Some? && suit.value == tableTrumpCard.value.suit {
        return Some(SameSuitAsTableTrump);
      }
      return None;
    }

    /** checkEndCondition (hand.go:206-208). */
    predicate CheckEndCondition()
      reads this
      requires Player1 in playerCards
    {
      |playerCards[Player1]| == 0
    }

    /**
     * handleTrickResult (hand.go:195-204): credit the winner's team, then
     * end the hand or open the winner's trick.  The ghost `played` is the
     * trick just scored; its cards join the scored ones.
     */
    method HandleTrickResult(result: TrickResult, ghost played: TrickView)
      requires Core() && state == HandInProgress && result.winnerPlayer in Seats && result.points >= 0
      requires WellFormed(played) && IsFinishedOf(played) && played.trump == trump && result.points == TrickPoints(played)
      requires currentTrick != null && currentTrick.Valid() && currentTrick.trump == trump
      requires fairDeal ==> Balanced(Playing(played), playerCards, won, totals, dealer, trump)
      modifies this`totals, this`state, this`currentTrick, this`Repr, this`won
      ensures Valid()
      ensures Credited(totals, old(totals), GetTeam(result.winnerPlayer), result.points)
      ensures won == PlayedCards(played) + old(won)
      ensures CheckEndCondition() ==> state == HandFinished && currentTrick == old(currentTrick) && Repr == old(Repr)
      ensures !CheckEndCondition() ==>
        state == old(state) && fresh(currentTrick) && Repr == {this, currentTrick}
        && currentTrick.startingPlayer == result.winnerPlayer && currentTrick.trump == trump
        && currentTrick.cards == map[] && currentTrick.Valid()
    {
      CreditTrick(result, played);
      if CheckEndCondition() {
        state := HandFinished;
        return;
      }
      OpenTrick(result.winnerPlayer);
    }

    /**
     * The first lines of handleTrickResult (hand.go:196-197): the trick's
     * points go to the winner's team and its cards to the scored ones.
     * The books then balance for a finished hand when Player1 holds no card,
     * and otherwise for the winner's empty trick.
     */
    method CreditTrick(result: TrickResult, ghost played: TrickView)
      requires Core() && state == HandInProgress && result.winnerPlayer in Seats && result.points >= 0
      requires WellFormed(played) && IsFinishedOf(played) && played.trump == trump && result.points == TrickPoints(played)
      requires fairDeal ==> Balanced(Playing(played), playerCards, won, totals, dealer, trump)
      modifies this`totals, this`won
      ensures Core()
      ensures Credited(totals, old(totals), GetTeam(result.winnerPlayer), result.points)
      ensures won == PlayedCards(played) + old(won)
      ensures fairDeal && CheckEndCondition() ==> Balanced(Over, playerCards, won, totals, dealer, trump)
      ensures fairDeal && !CheckEndCondition() ==>
        Balanced(Playing(TrickView(result.winnerPlayer, map[], trump)), playerCards, won, totals, dealer, trump)
    {
      ghost var w, t := won, totals;
      var team := GetTeam(result.winnerPlayer);
      totals := totals[team := totals[team] + result.points];
      won := PlayedCards(played) + won;
      if fairDeal {
        if CheckEndCondition() {
          EndBooks(playerCards, played, w, t, dealer, trump, result, team, won, totals);
        } else {
          NextBooks(playerCards, played, w, t, dealer, trump, result, team, won, totals, TrickView(result.winnerPlayer, map[], trump));
        }
      }
    }

    /** The end of handleTrickResult (hand.go:203): the winner leads a new, empty trick in the hand's trump. */
    method OpenTrick(leader: PlayerId)
      requires Core() && state == HandInProgress && leader in Seats
      requires fairDeal ==> Balanced(Playing(TrickView(leader, map[], trump)), playerCards, won, totals, dealer, trump)
      modifies this`currentTrick, this`Repr
      ensures Core() && Conserved() && fresh(currentTrick) && Repr == {this, currentTrick}
      ensures currentTrick.startingPlayer == leader && currentTrick.trump == trump
      ensures currentTrick.cards == map[] && currentTrick.Valid()
    {
      currentTrick := new Trick.NewTrick(leader, trump);
      Repr := {this, currentTrick};
      assert currentTrick.View() == TrickView(leader, map[], trump);
    }

    /**
     * What playing out `played` leaves behind (hand.go:73-83, 195-204): an
     * unfinished trick stays open holding the cards of `played`, and the
     * totals stand; a finished one adds
     * its points to the winner's team and its cards to the scored ones,
     * after which either the hand is over (Player1 holds no cards) or the
     * winner leads a new, empty trick.
     */
    ghost predicate TrickScored(oldTotals: map<TeamId, int>, oldWon: set<Card>, oldTrick: Trick?, played: TrickView, order: seq<PlayerId>)
      reads this, currentTrick
    {
      WellFormed(played) && IsSeatOrder(order) && Player1 in playerCards && oldTotals.Keys == {Team1, Team2}
      && if !IsFinishedOf(played) then
           state == HandInProgress && currentTrick == oldTrick && currentTrick != null && currentTrick.cards == played.cards
           && totals == oldTotals && won == oldWon
         else
           var r := TrickOutcome(played, order);
           Credited(totals, oldTotals, GetTeam(r.winnerPlayer), r.points)
           && won == PlayedCards(played) + oldWon
           && (|playerCards[Player1]| == 0 ==> state == HandFinished && currentTrick == oldTrick)
           && (|playerCards[Player1]| > 0 ==>
                 state == HandInProgress && currentTrick != null
                 && currentTrick.startingPlayer == r.winnerPlayer && currentTrick.cards == map[])
    }

    /**
     * The block of PlayCard that runs once the trick is full (hand.go:77-83):
     * score it with GetTrickResult and hand the result to handleTrickResult.
     */
    method ScoreFinishedTrick(order: seq<PlayerId>)
      requires Core() && state == HandInProgress && IsSeatOrder(order)
      requires currentTrick != null && currentTrick.Valid() && currentTrick.trump == trump
      requires IsFinishedOf(currentTrick.View())
      requires fairDeal ==> Balanced(Playing(currentTrick.View()), playerCards, won, totals, dealer, trump)
      modifies this`totals, this`state, this`currentTrick, this`Repr, this`won
      ensures Valid() && fresh(Repr - old(Repr))
      ensures currentTrick == old(currentTrick) || fresh(currentTrick)
      ensures TrickScored(old(totals), old(won), old(currentTrick), old(currentTrick.View()), order)
    {
      ghost var v := currentTrick.View();
      var result := currentTrick.GetTrickResult(order);
      assert result == Ok(TrickOutcome(v, order));
      HandleTrickResult(result.value, v);
    }

    /**
     * The rest of PlayCard (hand.go:73-85) once the trick has taken the
     * card: the player's hand shrinks, and a full trick is scored.
     * `played` is the trick as it stands after the card.
     */
    method AfterCardPlayed(player: PlayerId, heldAfter: set<Card>, order: seq<PlayerId>, ghost played: TrickView)
      requires Core() && state == HandInProgress && IsSeatOrder(order) && player in Seats
      requires currentTrick != null && currentTrick.Valid() && currentTrick.trump == trump
      requires currentTrick.View() == played
      requires fairDeal ==> Balanced(Playing(played), playerCards[player := heldAfter], won, totals, dealer, trump)
      modifies this`playerCards, this`totals, this`state, this`currentTrick, this`Repr, this`won
      ensures Valid() && fresh(Repr - old(Repr))
      ensures playerCards == old(playerCards)[player := heldAfter]
      ensures currentTrick == old(currentTrick) || fresh(currentTrick)
      ensures TrickScored(old(totals), old(won), old(currentTrick), played, order)
    {
      playerCards := playerCards[player := heldAfter];
      if IsFinishedOf(currentTrick.View()) {
        ScoreFinishedTrick(order);
      }
    }

    /**
     * PlayCard (hand.go:68-86).  The card goes to the current trick and
     * leaves the player's hand; a finished trick is scored for the winner's
     * team, and then either the hand ends (Player1 has no cards left) or the
     * winner leads a new trick.  A refused card changes nothing.
     */
    method PlayCard(player: PlayerId, card: Card, order: seq<PlayerId>) returns (err: Option<GameError>)
      requires Valid() && IsSeatOrder(order)
      modifies this`playerCards, this`totals, this`state, this`currentTrick, this`Repr, this`won, currentTrick
      ensures Valid() && fresh(Repr - old(Repr))
      ensures err == old(PlayError(player, card))
      ensures err.Some? ==> Repr == old(Repr) && unchanged(Repr)
      ensures err.None? ==>
        old(state) == HandInProgress && player in old(playerCards) && old(currentTrick) != null
        && player !in old(currentTrick.cards)
        && playerCards == old(playerCards)[player := old(playerCards)[player] - {card}]
        && (currentTrick == old(currentTrick) || fresh(currentTrick))
        && TrickScored(old(totals), old(won), old(currentTrick), Played(old(currentTrick.View()), player, card), order)
      ensures err.None? && fairDeal ==> DistinctTrickCards(Played(old(currentTrick.View()), player, card))
    {
      if state != HandInProgress {
        return Some(HandNotInProgress);
      }
      var held := if player in playerCards then playerCards[player] else {};
      ghost var v := currentTrick.View();
      var heldAfter;
      err, heldAfter := currentTrick.PlayCard(player, card, held);
      if err.Some? {
        return;
      }
      ghost var played := currentTrick.View();
      assert played == Played(v, player, card);
      if fairDeal {
        PlayCardSucceedsIff(v, player, card, held);
        PlayBooks(playerCards, v, won, totals, dealer, trump, player, card, playerCards[player := heldAfter], played);
      }
      AfterCardPlayed(player, heldAfter, order, played);
    }

    /** GetCurrentTurn (hand.go:168-181). */
    method GetCurrentTurn() returns (r: Result<PlayerId, GameError>)
      requires Valid()
      ensures r == CurrentTurn()
    {
      match state
      case TableTrumpSelection =>
        r := GetCurrentTrumpSelectionTurn(tableTrumpSelectionStatus);
      case FreeTrumpSelection =>
        r := GetCurrentTrumpSelectionTurn(freeTrumpSelectionStatus);
      case HandInProgress =>
        r := CurrentTurnOf(currentTrick.View());
      case HandFinished =>
        r := Err(HandIsFinished);
    }
  }

  /**
   * Whose turn it is in each state of a valid hand: the ballots and the
   * tricks go round the table from the seat that starts, and only a
   * finished hand has no turn.
   */
  lemma CurrentTurnGoesRoundHand(h: Hand)
    requires h.Valid()
    ensures h.CurrentTurn().Ok? <==> h.state != HandFinished
    ensures h.state == TableTrumpSelection ==>
      h.CurrentTurn() == Ok(TurnSeat(h.startingPlayer, |h.tableTrumpSelectionStatus|))
    ensures h.state == FreeTrumpSelection ==>
      h.CurrentTurn() == Ok(TurnSeat(h.startingPlayer, |h.freeTrumpSelectionStatus|))
    ensures h.state == HandInProgress ==>
      h.CurrentTurn() == Ok(TurnSeat(h.currentTrick.startingPlayer, |h.currentTrick.cards|))
    ensures h.CurrentTurn().Ok? ==> h.CurrentTurn().value in Seats
  {
    match h.state
    case TableTrumpSelection =>
      SelectionTurnIsNext(h.startingPlayer, h.tableTrumpSelectionStatus);
    case FreeTrumpSelection =>
      SelectionTurnIsNext(h.startingPlayer, h.freeTrumpSelectionStatus);
    case HandInProgress =>
      CurrentTurnGoesRound(h.currentTrick.View());
    case HandFinished =>
  }

  /**
   * A hand dealt from a deck that repeats no card ends with all 32 cards
   * scored, so the two teams' totals add up to the deck's 152 points.
   */
  lemma FinishedHandScoresAll(h: Hand)
    requires h.Valid() && h.fairDeal && h.state == HandFinished
    ensures h.won == AllCards() && h.totals[Team1] + h.totals[Team2] == 152
  {
    FinishedBooks(h.playerCards, h.won, h.totals, h.dealer, h.trump);
  }

  /** While a hand from a deck without repeats is dealt and played, the two totals never exceed 152. */
  lemma TotalsWithinDeck(h: Hand)
    requires h.Valid() && h.fairDeal
    ensures 0 <= h.totals[Team1] + h.totals[Team2] <= 152
  {
    match h.state
    case HandInProgress =>
      BalancedTotalsBounded(Playing(h.currentTrick.View()), h.playerCards, h.won, h.totals, h.dealer, h.trump);
    case HandFinished =>
      BalancedTotalsBounded(Over, h.playerCards, h.won, h.totals, h.dealer, h.trump);
    case _ =>
      BalancedTotalsBounded(Balloting(h.tableTrumpCard.value), h.playerCards, h.won, h.totals, h.dealer, h.trump);
  }
}
