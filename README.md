# Belote engine, modelled in Dafny

This project models the core of a four-player Belote server and proves properties of that model. Belote is played by two teams with a 32-card deck. The modelled core has these parts:

- **Cards** (`cards.dfy`, game/card.go): suits and ranks, the trump and non-trump rank orders, and the two point tables.
- **Dealer** (`dealer.dfy`, game/dealer.go): the shuffled deck, and a dealer that hands out one card at a time. The model is a class over an `array`.
- **Trick** (`trick.dfy`, game/trick.go): the trick as a class whose map of played cards `PlayCard` updates.
  - The legality chain of `validateCard`.
  - The winner and points of a finished trick.
- **Hand** (`hand.dfy`, `hand_deal.dfy`, game/hand.go): the hand as a class covering:
  - the initial deal;
  - the table-card ballot, then the free ballot;
  - the rest of the deal, the tricks and the scoring.
- **Card account** (`card_account.dfy`): ghost bookkeeping of where each of the 32 cards is during a hand — a seat's hand, the deck, the trick or the scored tricks. It shows that no card is created, lost or duplicated, and that a finished hand's totals are worth 152.
- **Game** (`game.dfy`, game/game.go):
  - the game as a class holding the scores and the current hand;
  - the rotation of the starting seat from hand to hand;
  - the end condition.
- **Seats and teams** (`players.dfy`, game/game.go:16-73): seats, teams, and the next/previous seat arithmetic with Go's truncating `%`.
- **Command-line parsing** (`cli_utils.dfy`, cli/utils.go): card, rank and suit parsing, and the player names.
- **Web client seat arithmetic** (`client_player_id.dfy`, client/app/client/player-id.ts).
- **Rooms** (`seating.dfy`, `serverroom.dfy`, `room.dfy`; server/internal/serverroom/room.go and server/internal/room/room.go): joining, choosing a team, the balance check, the random seat draw, and starting the game.
- **Room manager** (`room_manager.dfy`, server/internal/room/manager.go): rooms filed under decimal ids drawn from a counter.

`wrappers.dfy` holds `Option` and `Result`. `game_errors.dfy` replaces the source's error strings with one datatype. `trick_scenarios.dfy` replays the sixteen `validateCard` cases of game/trick_test.go.

Randomness is never modelled as a distribution:

- The shuffle is a permutation parameter (`perm`), standing for `rand.Perm`.
- A coin flip of `rand.IntN(2)` is `var draw: bool :| true`.
- Go's unspecified map iteration order is an order parameter or a `:|` pick.

Every contract therefore holds for every shuffle, every draw and every iteration order. A Go `panic` becomes a precondition. Go's zero `Card{}` and `nil` become `Option.None`.

Three points of the code look unintended, and the model records them:

- **Deck size.** Belote is played with 32 cards, and game/card.go itself defines eight ranks with an order and points for each (lines 38-92). Yet the deck is built from `NUM_SUITS * NUM_CARD_VALUES` = 16 cards, because `NUM_CARD_VALUES` is 4.
- **Over-trump rule.** game/trick.go:127-142 defines the rule, and game/trick_test.go:140-156 and 207-222 expect `ErrMustPlayHigherRankTrumpCard`. The code never enforces it: the highest-trump lookup always returns nil, and a card of the lead suit is accepted at once even when trump was led.
- **Room start.** Both room packages guard Join, ChooseTeam and StartGame on `started`, but nothing ever sets it.

These points are in "## Findings": each is modelled both as written and corrected, and the rest of the model uses the corrected version.

## Model

| member | source | states |
|---|---|---|
| Cards.NonTrumpOrderIndex | game/card.go:38-50 | the non-trump index lies in 0..7: Seven is lowest, Ace highest, Ten second highest |
| Cards.TrumpOrderIndex | game/card.go:52-64 | the trump index lies in 0..7: Seven is lowest, Jack highest, Nine second highest |
| Cards.NonTrumpPoints | game/card.go:66-78 | no non-trump card is worth more than 11 |
| Cards.TrumpPoints | game/card.go:80-92 | no trump card is worth more than 20 |
| Cards.OrderIndexBijective | game/card.go:38-64 | each rank order is one-to-one onto 0..7, listing the ranks from lowest to highest |
| Cards.LessIsStrictTotalOrder | game/card.go:94-99 | `Less` is irreflexive, asymmetric, transitive and total on distinct ranks, in both tables |
| Cards.PointsFollowOrder | game/card.go:66-99 | a rank higher in an order is never worth fewer points in that table |
| Cards.SuitTotals | game/card.go:66-92 | one suit's eight ranks are worth 30 as non-trump and 62 as trump |
| Cards.DeckIsWorth152 | game/card.go:66-92 | a full deck is worth 152 points whatever the trump |
| Dealer.ShuffleDeck | game/dealer.go:31-46 | the built array is, position by position, the card perm[i] stands for: suit v%4, rank v/4 |
| Dealer.CardOfInjective | game/dealer.go:38-43 | different numbers below 32 stand for different cards |
| Dealer.ShuffledDistinct | game/dealer.go:31-46 | a shuffled deck has no repeated card |
| Dealer.ShuffledRanksAreLow | game/dealer.go:13 | with MAX_DECK_SIZE = 16, every card dealt is a Seven, Eight, Nine or Ten, never a Jack |
| Dealer.PermCovers | game/dealer.go:33 | a permutation of 0..n-1 takes every value |
| Dealer.NumberOf | game/dealer.go:38-43 | every card has a number below 32 that stands for it; that number is below 16 exactly for the low ranks |
| Dealer.ShuffledContents | game/dealer.go:31-46 | the 16-card deck holds exactly the sixteen cards of ranks Seven to Ten |
| Dealer.FullShuffledContents | game/dealer.go:31-46 | a 32-card shuffle holds each of the 32 cards exactly once |
| Dealer.ShuffledSuitCount | game/dealer.go:31-46 | each suit has exactly its four low cards in the 16-card deck |
| Dealer.RandomDealer.NewRandomDealer | game/dealer.go:15-20 | the dealer starts at position 0 of the shuffled deck, nothing dealt |
| Dealer.RandomDealer.DealCard | game/dealer.go:22-29 | past 16 cards: `DeckEmpty`, position unchanged. Otherwise: the card at the position, which moves by one. A dealt card was not dealt before |
| Dealer.DealtCardsBounded | game/dealer.go:22-29 | a dealer delivers at most 16 distinct cards, none a Jack |
| Players.GoRem | game/game.go:67-73 | Go's `%`: the Euclidean value for a >= 0; for a < 0, a result in (-n, 0] |
| Players.GoRemIsOdd | game/game.go:67-73 | Go's `%` is odd in its first operand and differs from Dafny's on negative operands |
| Players.GetTeam | game/game.go:49-54 | Team1 exactly for seats 1 and 3, Team2 for every other id |
| Players.TurnIndex | game/trick.go:85 | every seat is reached from any start within fewer than four steps |
| Players.InTurnFull | game/trick.go:71-86 | seats taken in turn cover the table exactly when there are four of them; a seat in turn has not played |
| Players.InTurnAdd | game/trick.go:80-86 | adding the seat in turn keeps the set in turn and grows it by one |
| Players.TeamOfSeats | game/game.go:49-54 | seats 1 and 3 are Team1 and seats 2 and 4 Team2; every non-seat id maps to Team2 |
| Players.TeammateInvolution | game/game.go:56-65 | on seats, the teammate is another seat of the same team, and the teammate of the teammate is the seat |
| Players.NextSeat | game/game.go:67-69 | the next seat is one up, with Player4 followed by Player1 |
| Players.PreviousSeat | game/game.go:71-73 | the previous seat is one down, with Player1 preceded by Player4 |
| Players.NextPreviousInverse | game/game.go:67-73 | next and previous stay on seats and undo each other |
| Players.FourStepsComeBack | game/game.go:67-69 | four next-steps come back to the same seat |
| Players.NextIsOpponent | game/game.go:49-69 | the next seat belongs to the other team |
| Players.TurnSeatFacts | game/game.go:147-149 | walking round from a seat stays on seats, starts there, steps by GetNextPlayerId and has period four |
| Players.TurnSeatsDistinct | game/hand.go:210-218 | four consecutive steps visit four different seats |
| Trick.FinishedIffFull | game/trick.go:71-78 | a trick played in turn is finished exactly when it holds four cards |
| Trick.CurrentTurnGoesRound | game/trick.go:80-86 | finished iff trick-finished error. Otherwise the turn is a seat that has not played: the starting player first, then the seat after the last to play |
| Trick.HighestTrumpBelow | game/trick.go:157-168 | the trump found is held and is highest below the bound, or no trump lies below the bound |
| Trick.HighestTrumpOf | game/trick.go:157-168 | the result is the highest trump rank among the cards, or None when there is no trump |
| Trick.HighestTrumpUnique | game/trick.go:157-168 | anything with the defining property of the highest trump equals HighestTrumpOf |
| Trick.HigherTrumpRuleMeansOvertrump | game/trick.go:127-142 | given the highest trump played, the rule fails exactly when the player could beat it and plays below it |
| Trick.NoTrumpPlayedNoOvertrump | game/trick.go:118-124 | with no trump on the table the over-trump obligation never applies |
| Trick.ValidateCardIsLegalPlay | game/trick.go:92-125 | the corrected validateCard accepts a card iff an independent statement of the rules of play allows it |
| Trick.ValidateCardErrors | game/trick.go:92-125 | each error is reported exactly in the situation that causes it, and no other error occurs |
| Trick.AsWrittenOnlyMissesOvertrump | game/trick.go:92-125 | as written, validateCard agrees with the corrected one except that it accepts where the corrected one says MustPlayHigherTrump |
| Trick.PlayCardSucceedsIff | game/trick.go:24-41 | a play succeeds iff the trick is open, it is the player's turn and the card is legal |
| Trick.WellFormedAfterPlay | game/trick.go:38 | the seat in turn has not played, and adding its card keeps the trick played in turn |
| Trick.BetterIsHigherKey | game/trick.go:58-65 | against a trump or lead-suit card, the scan's replacement test is "has a higher key" |
| Trick.KeyInjective | game/trick.go:58-65 | two trump or lead-suit cards with the same key are the same card |
| Trick.ScanWinnerIsMax | game/trick.go:49-66 | the scan ends on a card whose key is at least that of every card scanned |
| Trick.WinnerHasMaxKey | game/trick.go:43-69 | for any scan order, the winner is a seat holding the largest key on the table |
| Trick.WinnerIndependentOfOrder | game/trick.go:51-66 | with distinct cards, the winner does not depend on Go's map iteration order |
| Trick.WinnerTakesHighestCard | game/trick.go:43-69 | the winner holds the highest trump when a trump was played, otherwise the highest card of the lead suit |
| Trick.SumPointsRemove | game/trick.go:51-56 | removing one seat from the scan removes exactly that card's points |
| Trick.SumPointsPermutation | game/trick.go:51-56 | the points summed do not depend on the order of summation |
| Trick.PointsIndependentOfOrder | game/trick.go:48-56 | every scan order gives the trick's points |
| Trick.TrickPointsBounded | game/trick.go:48-56 | a trick's points are the sum of its four cards' points, between 0 and 80 |
| Trick.HasCardOfSuit | game/trick.go:144-151 | the loop answers true exactly when some held card has the suit |
| Trick.PlayersHighestTrump | game/trick.go:173-187 | the loop returns the highest trump rank held, or None when no trump is held |
| Trick.Trick.NewTrick | game/trick.go:16-22 | an empty trick with the given starting player and trump |
| Trick.Trick.HighestTrumpInTrickAsWritten | game/trick.go:157-171 | as written the lookup always returns nil |
| Trick.Trick.HighestTrumpInTrick | game/trick.go:157-168 | the corrected lookup returns the highest trump on the table |
| Trick.Trick.ValidateHigherTrumpRule | game/trick.go:127-142 | the method decides as the over-trump rule does for the highest trump played |
| Trick.Trick.Validate | game/trick.go:92-125 | the method decides what the corrected validateCard decides |
| Trick.Trick.PlayCard | game/trick.go:24-41 | the error is PlayCardError. On success the card is added under the player and leaves the held set; on error nothing changes |
| Trick.Trick.GetTrickResult | game/trick.go:43-69 | unfinished: TrickNotFinished. Finished: the scan winner and the summed points for the given order |
| Trick.TrickOutcome | game/trick.go:43-69 | the winner of a finished trick is a seat that played, and the points are the trick's, 0..80 |
| Trick.TrickResultIndependentOfOrder | game/trick.go:43-69 | with distinct cards, GetTrickResult is the same for every map iteration order |
| TrickScenarios.PlayedByTwo | game/trick_test.go:41-57 | the cards on a table where two seats have played are exactly those two |
| TrickScenarios.ScenarioCardNotOwned | game/trick_test.go:15-27 | an unowned card is refused with CardNotOwned |
| TrickScenarios.ScenarioFirstCard | game/trick_test.go:28-40 | the first card of a trick is accepted |
| TrickScenarios.ScenarioFollowLeadSuccess | game/trick_test.go:41-57 | following the lead suit is accepted |
| TrickScenarios.ScenarioFollowLeadError | game/trick_test.go:58-74 | not following a held lead suit gives MustFollowLeadSuit |
| TrickScenarios.ScenarioMustPlayTrumpSuccess | game/trick_test.go:75-90 | void in the lead suit, a trump is accepted |
| TrickScenarios.ScenarioMustPlayTrumpError | game/trick_test.go:91-106 | void in the lead suit but holding trump, a discard gives MustPlayTrump |
| TrickScenarios.ScenarioCanPlayAnything | game/trick_test.go:107-122 | void in lead and trump, any card is accepted |
| TrickScenarios.ScenarioHigherTrumpSuccess | game/trick_test.go:123-139 | over-trumping is accepted |
| TrickScenarios.ScenarioHigherTrumpError | game/trick_test.go:140-156 | as written, under-trumping while holding a higher trump is accepted; corrected, it gives MustPlayHigherTrump as the test expects |
| TrickScenarios.ScenarioNoHigherTrumpSuccess | game/trick_test.go:157-173 | a player without a higher trump may play a lower one |
| TrickScenarios.ScenarioNoHigherTrumpError | game/trick_test.go:174-190 | a discard while holding a trump gives MustPlayTrump |
| TrickScenarios.ScenarioTrumpLedHigherSuccess | game/trick_test.go:191-206 | on a trump lead, a higher trump is accepted |
| TrickScenarios.ScenarioTrumpLedHigherError | game/trick_test.go:207-222 | on a trump lead, as written and with only the lookup corrected, a lower trump is accepted; fully corrected, it gives MustPlayHigherTrump |
| TrickScenarios.ScenarioTrumpLedNoHigherSuccess | game/trick_test.go:223-238 | on a trump lead, a player without a higher trump may follow low |
| TrickScenarios.ScenarioTrumpLedNoHigherError | game/trick_test.go:239-254 | on a trump lead, a player holding trump must follow it |
| TrickScenarios.ScenarioTrumpLedNoTrump | game/trick_test.go:255-271 | on a trump lead, a player without trump may play anything |
| HandDeal.DealSeats | game/hand.go:183-193 | a completed deal keeps the same seats |
| HandDeal.CompletesAt | game/hand.go:244-254 | a deal that can complete for a seat completes after that seat takes the table card |
| HandDeal.CompletesFromEach | game/hand.go:244-254 | a deal that completes for every seat taking the table card satisfies CanComplete |
| HandDeal.DrawUntilTakesPrefix | game/hand.go:185-191 | the inner loop takes a prefix of the deck, keeps every held card and adds exactly the drawn ones |
| HandDeal.DrawUntilCounts | game/hand.go:185-191 | the inner loop ends with at least n cards, exactly n when it started with at most n, having drawn at least the missing number |
| HandDeal.DrawUntilFresh | game/hand.go:185-191 | from a deck of new cards the inner loop takes exactly the missing cards off the top |
| HandDeal.DealSeatsSuffix | game/hand.go:183-193 | the deal leaves a suffix of the deck |
| HandDeal.DealSeatsNeeds | game/hand.go:183-193 | the deal takes at least the number of missing cards |
| HandDeal.DealDrawOne | game/hand.go:185-191 | while a seat is short of cards and the deal can finish, the deck has a top card and the seat takes it |
| HandDeal.DealSkipFull | game/hand.go:185 | a seat that already has n cards draws nothing |
| HandDeal.DealSeatsFresh | game/hand.go:183-193 | the deal succeeds whenever the deck holds enough new, unrepeated cards |
| HandDeal.DealSeatsKeepsOthers | game/hand.go:183-193 | seats not being dealt to keep their cards |
| HandDeal.DealSeatsFills | game/hand.go:183-193 | every seat dealt to that held at most n cards ends with exactly n |
| HandDeal.DealEmptySeats | game/hand.go:183-193 | empty-handed seats take the consecutive blocks of n cards in seat order |
| HandDeal.EmptyHandsFacts | game/hand.go:256-262 | makePlayerCards gives each seat an empty set; the initial deal needs 20 cards, the full deal 32 |
| HandDeal.SuppliesNeedsCards | game/hand.go:34-66 | a hand can be dealt only from at least 21 cards, and from at least 33 when the top card is a Jack |
| HandDeal.InitialDeal | game/hand.go:183-193 | after the table card, seat p receives the 5 cards at positions 5(p-1)+1 to 5p, and the deck resumes at card 22 |
| HandDeal.InitialHandsFacts | game/hand.go:183-193 | the initial hands hold five cards each and share no card with the table card or the rest of the deck |
| HandDeal.CompleteAfterTable | game/hand.go:244-254 | with 32 distinct cards, whoever takes the table card, dealCards completes |
| HandDeal.DistinctDeckSupplies | game/hand.go:34-66 | 32 distinct cards without a Jack on top let the hand be dealt without a panic |
| HandDeal.InitialCanComplete | game/hand.go:244-254 | after the initial deal of 32 distinct cards, the deal can be completed |
| HandDeal.NeedAtMost | game/hand.go:244-254 | with five cards per seat and six at one, bringing all to eight needs at most eleven cards |
| CardAccount.AllCardsFacts | game/dealer.go:31-46 | the 32-card deck holds 32 cards and every card there is |
| CardAccount.ThirtyTwoIsAll | game/dealer.go:31-46 | any set of at least 32 cards is the whole deck |
| CardAccount.PointsOfUnion | game/card.go:66-92 | the points of two disjoint sets of cards add up |
| CardAccount.PointsOfIsSuitBySuit | game/card.go:66-92 | counting a set's points card by card gives what counting suit by suit and rank by rank gives |
| CardAccount.PointsOfAllCards | game/card.go:66-92 | the whole deck is worth 152 points whatever the trump |
| CardAccount.PointsOfSubset | game/card.go:66-92 | a subset of cards is worth no more than the set |
| CardAccount.PointsWithinDeck | game/card.go:66-92 | no set of cards is worth more than 152 |
| CardAccount.TrickPointsOfCards | game/trick.go:48-56 | the points of a finished trick with no repeated card are the points of its set of cards |
| CardAccount.PlayedBound | game/trick.go:24-41 | a trick holds at most as many different cards as seats that played, and exactly as many iff no card repeats |
| CardAccount.PlayAccountPlaces | game/hand.go:68-86 | during play every card is in exactly one place (a hand, the trick or the scored cards), these make up the deck, and no card repeats on the trick |
| CardAccount.CountedIsPlaced | game/hand.go:68-86 | 32 cards counted place by place that form 32 different cards put no card in two places |
| CardAccount.PlacedIsCounted | game/hand.go:68-86 | conversely, no card in two places and 32 counted place by place give 32 different cards |
| CardAccount.FinishedAccountScoresAll | game/hand.go:195-208 | with the hands and the deck empty and 32 cards scored, the scored cards are the deck and are worth 152 |
| CardAccount.DealSeatsApart | game/hand.go:183-193 | dealing moves cards off the top of the deck to the seats and never puts a card in two places |
| CardAccount.BallotDeal | game/hand.go:62-63 | the initial deal leaves five cards in each hand, apart from each other, the table card and the deck |
| CardAccount.TakeTable | game/hand.go:97-98 | after a seat takes the table card, no card is in two places and no seat holds more than eight |
| CardAccount.FullHandsHoldAll | game/hand.go:244-254 | four hands of eight with no shared card hold the whole deck |
| CardAccount.FullDeal | game/hand.go:244-254 | completing the deal uses up the deck and leaves eight cards in each hand, none in two places |
| CardAccount.PlayDeal | game/hand.go:237-254 | the completed deal starts play with the card account kept: nothing scored, totals worth 0 |
| CardAccount.OpenPlay | game/hand.go:237-242 | four apart hands of eight, an empty trick and nothing scored make a play account |
| CardAccount.PlayMovesCard | game/hand.go:68-86 | playing a held card moves it from the hand to the trick, keeps the account and repeats no card on the trick |
| CardAccount.ScoreMovesTrick | game/hand.go:195-196 | a finished trick's points plus the totals are the points of the scored cards with the trick's; all hands are the same size |
| CardAccount.TrickEndsHand | game/hand.go:198-201 | scoring the last trick leaves all 32 cards scored, with the totals worth their points |
| CardAccount.TrickOpensNext | game/hand.go:203 | opening an empty trick after a scored one keeps the account |
| CardAccount.OpenBooks | game/hand.go:34-55 | the account opens with empty hands, nothing scored and the first card set aside |
| CardAccount.DealBooks | game/hand.go:62-63 | the initial deal takes the account to the ballot stage |
| CardAccount.JackBooks | game/hand.go:57-60 | a Jack on top takes the account straight to the final deal |
| CardAccount.TakeBooks | game/hand.go:97-100 | taking the table card takes the account to the final deal |
| CardAccount.CompleteBooks | game/hand.go:237-254 | the final deal takes the account to play, with an empty trick |
| CardAccount.PlayBooks | game/hand.go:68-86 | playing a held card keeps the account, and no card repeats on the trick |
| CardAccount.EndBooks | game/hand.go:195-201 | crediting the last trick to one team closes the account |
| CardAccount.NextBooks | game/hand.go:195-204 | crediting a trick to one team and opening the next keeps the account |
| CardAccount.FinishedBooks | game/hand.go:195-208 | a closed account has scored the whole deck, and the two totals add up to 152 |
| CardAccount.BalancedTotalsBounded | game/hand.go:195-204 | at every stage of a hand the two team totals add up to between 0 and 152 |
| Hand.FirstUnvotedInTurn | game/hand.go:210-218 | with votes cast in turn, the loop finds the seat |votes| steps round, or AllPlayersSelected once all have voted |
| Hand.SelectionTurnIsNext | game/hand.go:210-218 | the next voter is the seat |votes| steps round, who has not voted; all-voted iff the error |
| Hand.TurnCheckIff | game/hand.go:220-235 | the check passes iff the player is the seat in turn; AlreadySelected iff the player has voted; no other outcome |
| Hand.LastPlayerIsPrevious | game/hand.go:264-266 | the last voter is the seat before the starting player and comes fourth |
| Hand.DealUpTo | game/hand.go:183-193 | the dealing loops end in the state DealSeats specifies |
| Hand.Hand.WithTableCard | game/hand.go:98 | taking the table card adds the player to the seats with cards |
| Hand.Hand.HandleTrumpSelected | game/hand.go:237-242 | trump set, hand in progress, an empty first trick led by the starting player, and the deal completed as specified |
| Hand.Hand.StartPlay | game/hand.go:238-240 | trump set, hand in progress, and a fresh empty trick with that trump led by the starting player |
| Hand.Hand.TakeTableCard | game/hand.go:97-100 | the player's cards gain the table card, the trump is set, and the full deal runs from there |
| Hand.Hand.NewHand | game/hand.go:34-66 | Jack on top: its suit is trump, the first trick opens and the full hands are dealt as DealSeats specifies. Otherwise: table ballot open, top card on the table, five cards each. Totals 0, nothing scored, and the deck is fair iff it repeats no card |
| Hand.Hand.OpeningValid | game/hand.go:34-66 | a hand as NewHand leaves it is valid; for a deck without repeats its card account balances with nothing scored |
| Hand.Hand.GetCurrentTrumpSelectionTurn | game/hand.go:210-218 | the loop returns what SelectionTurnOf specifies |
| Hand.Hand.CheckIsTrumpSelectionTurnFor | game/hand.go:220-235 | the method returns what TurnCheck specifies |
| Hand.Hand.AcceptTableTrump | game/hand.go:88-109 | errors as AcceptError, changing nothing. Accept: seat in turn takes the card, the suit is trump, the deal completes. Pass: vote recorded, and the fourth opens the free ballot |
| Hand.Hand.CheckAcceptTableTrump | game/hand.go:89-95 | the checks return AcceptError; on success the ballot is open and the player is the seat in turn who has not voted |
| Hand.Hand.RecordTablePass | game/hand.go:103-106 | the vote is added; the state turns to the free ballot exactly at four votes |
| Hand.Hand.RecordFreePass | game/hand.go:124-126 | the vote is added, and fewer than four votes remain counted |
| Hand.Hand.SelectTrump | game/hand.go:111-136 | errors as SelectError, changing nothing. Named suit: it differs from the table suit and the deal completes. Pass: recorded, never from the last seat |
| Hand.Hand.CheckSelectTrump | game/hand.go:112-131 | the checks return SelectError; on success the free ballot is open, the player is in turn, and a pass does not come from the last seat |
| Hand.Hand.HandleTrickResult | game/hand.go:195-204 | only the winner's team gains the trick's points, and the trick's cards join the scored ones; then the hand ends when Player1 has no cards, otherwise the winner leads a new, empty trick in the trump |
| Hand.Hand.CreditTrick | game/hand.go:196 | only the winner's team gains the points and the trick's cards join the scored ones; the card account then balances for a finished hand or for the winner's next trick |
| Hand.Hand.OpenTrick | game/hand.go:203 | a fresh, empty, valid trick led by the winner in the hand's trump, and the card account kept |
| Hand.Hand.ScoreFinishedTrick | game/hand.go:77-83 | a finished trick is scored as TrickScored states |
| Hand.Hand.AfterCardPlayed | game/hand.go:73-85 | the player's cards are replaced by what remains, and the trick is scored if full |
| Hand.Hand.PlayCard | game/hand.go:68-86 | error as PlayError, nothing changed. Success: the seat in turn loses the card and it lies on the trick; a full trick is scored for the winner's team alone, and its cards count as scored. From a deck without repeats, no card repeats on the trick |
| Hand.Hand.GetCurrentTurn | game/hand.go:168-181 | the method returns what CurrentTurn specifies |
| Hand.CurrentTurnGoesRoundHand | game/hand.go:168-181 | a turn exists iff the hand is not finished. In each ballot and trick it is the seat so many steps from the seat that started it |
| Hand.FinishedHandScoresAll | game/hand.go:195-208 | a finished hand dealt from a deck without repeats has scored all 32 cards, and its two totals add up to 152 |
| Hand.TotalsWithinDeck | game/hand.go:195-204 | while a hand dealt from a deck without repeats runs, its two totals add up to at most 152 |
| Game.HandStarterRotates | game/game.go:147-149 | hand n is started n seats round from the starting seat; the start moves one seat per hand and repeats every four hands |
| Game.SixteenCardsNeverSupply | game/dealer.go:13 | as written, every 16-card deck is too short for NewHand's initial deal of 21 cards |
| Game.FullDeckDeals | game/hand.go:57-60 | with 32 cards, a shuffle lets the hand be dealt iff its top card is not a Jack |
| Game.ShuffleDealsInitially | game/hand.go:52-63 | a dealing shuffle opens the table ballot and gives each seat five consecutive cards |
| Game.DealHand | game/game.go:144 | a fresh, valid hand from the shuffle: table ballot open, five cards each, nothing scored, a deck without repeats |
| Game.BeloteGame.NewBeloteGame | game/game.go:75-89 | Ready, no hand, hand number 0, both scores 0, Player1 starts, target 1000 |
| Game.BeloteGame.SetupHand | game/game.go:143-145 | a new hand from the shuffle, started by the seat calculateHandStartingPlayer gives, dealt from a deck without repeats with nothing scored |
| Game.BeloteGame.Start | game/game.go:91-94 | from any state, the game is in progress with such a new hand |
| Game.BeloteGame.HandleHandEnd | game/game.go:151-162 | each score grows by its team's hand total; at the target the game is finished with no hand, otherwise the next hand starts |
| Game.BeloteGame.AddHandTotals | game/game.go:152-153 | each team's score grows by its total in the current hand |
| Game.BeloteGame.EndGame | game/game.go:156-157 | the game is finished and has no hand |
| Game.BeloteGame.RefreshHand | game/game.go:164-167 | the hand number grows by one and a new hand starts for it |
| Game.BeloteGame.PlayCard | game/game.go:96-111 | error as PlayError, nothing changed. Scores never fall. Success: the hand plays and scores the card as Hand.Hand.PlayCard states, with no card repeated on the trick. A hand this card finishes adds its totals, 152 in all, to the scores, and the game ends or moves on |
| Game.BeloteGame.PlayOnHand | game/game.go:101-104 | the current hand plays and scores the card as Hand.Hand.PlayCard states, with the hand's own error |
| Game.BeloteGame.AcceptTableTrump | game/game.go:113-119 | refused outside a game in progress, otherwise the hand's result. Accept: the seat in turn takes the table card, its suit is trump, the first trick opens and the deal completes. Pass: the vote is recorded and the fourth opens the free ballot. The game's own fields do not change |
| Game.BeloteGame.SelectTrump | game/game.go:121-127 | refused outside a game in progress, otherwise the hand's result. A named suit other than the table suit becomes trump, the first trick opens and the deal completes. Pass: recorded, never from the last seat. The game's own fields do not change |
| CliUtils.ToUpper | cli/utils.go:77 | the result is never longer than the text; on ASCII text it upper-cases each byte |
| CliUtils.ToUpperAppendAscii | cli/utils.go:66-74 | text ending in an ASCII byte upper-cases as its front followed by that byte upper-cased |
| CliUtils.RankParse | cli/utils.go:76-97 | stringToRank succeeds iff the upper-cased text is a rank label, and yields that rank; otherwise Seven with InvalidRank |
| CliUtils.RankLabelParses | cli/utils.go:76-97 | every rank label, upper or lower case, parses to its rank |
| CliUtils.SuitParse | cli/utils.go:99-112 | stringToSuit succeeds iff the upper-cased text is H, D, C or S, and yields that suit; otherwise Hearts with InvalidSuit |
| CliUtils.SuitLetterParses | cli/utils.go:99-112 | every suit letter, upper or lower case, parses to its suit |
| CliUtils.LongSParsesAsSpades | cli/utils.go:99-112 | the two bytes of the long s upper-case to S and parse as Spades; its first byte alone is no suit |
| CliUtils.CardTextRoundTrip | cli/utils.go:66-74 | parsing a card's text gives back the card without error |
| CliUtils.StringToCardAccepts | cli/utils.go:66-74 | an accepted text is, up to case, the text of the card it yields. A rank error gives no card; a suit error gives the card with Hearts |
| CliUtils.UpperCardText | cli/utils.go:66-74 | a front that upper-cases to a rank label, followed by a byte that upper-cases to a suit letter, upper-cases to the text of that card |
| CliUtils.PlayerNamesDistinct | cli/utils.go:114-127 | the four player names are pairwise different |
| ClientPlayerId.EnumGoesToSeats | client/app/client/player-id.ts:9-15 | on every enum value both functions give a seat; NoId is followed by Player1 and preceded by Player3 |
| ClientPlayerId.SeatSteps | client/app/client/player-id.ts:9-15 | on seats, next is one up and previous one down, wrapping at the ends |
| ClientPlayerId.ClientNextPreviousInverse | client/app/client/player-id.ts:9-15 | on seats, next and previous undo each other |
| ClientPlayerId.ClientFourSteps | client/app/client/player-id.ts:9-11 | four steps visit all four seats and come back |
| ClientPlayerId.AgreesWithServer | client/app/client/player-id.ts:9-15 | the client's functions equal the server's getNextPlayerId and getPreviousPlayerId on every integer |
| ClientPlayerId.BelowEnumLeavesSeats | client/app/client/player-id.ts:9-11 | below the enum the client's answer leaves the seats: -1 gives 0 |
| Seating.CheckBalance | server/internal/serverroom/room.go:126-140 | no error iff there are two Team1 users and two others; the error is TeamsNotBalanced |
| Seating.DrawSeat | server/internal/serverroom/room.go:103-119 | while a seat of the team is free, the draw gives a free seat of the user's team |
| Seating.AssignSeats | server/internal/serverroom/room.go:95-124 | for balanced teams, every user gets a seat of their team and no two share a seat, for every draw and order |
| Seating.TeamSeatFree | server/internal/serverroom/room.go:102-121 | during the draw, a user not yet seated still has a free seat of their team |
| Seating.ProperSeatingFillsTable | server/internal/serverroom/room.go:95-124 | balanced teams, properly seated, fill all four seats |
| ServerRoom.TeamsOf | server/internal/serverroom/room.go:24-27 | one team entry per user |
| ServerRoom.SeatsOf | server/internal/serverroom/room.go:24-27 | one seat entry per user |
| ServerRoom.WithSeats | server/internal/serverroom/room.go:117 | every user keeps their record, with the drawn seat |
| ServerRoom.WithSeatsKeepsTeams | server/internal/serverroom/room.go:102-121 | seating users keeps every team, and their seats are the drawn ones |
| ServerRoom.Room.NewRoom | server/internal/serverroom/room.go:32-39 | an empty, unstarted room whose new game is Ready with no hand |
| ServerRoom.Room.Join | server/internal/serverroom/room.go:41-59 | known user: no error, no change. Started: GameAlreadyStarted. Four users: RoomFull. Otherwise the user joins Team1 with no seat |
| ServerRoom.Room.ChooseTeam | server/internal/serverroom/room.go:61-75 | unknown user: PlayerNotFound. Started: GameAlreadyStarted. Otherwise the record becomes the team with no seat |
| ServerRoom.Room.TurnPlayer | server/internal/serverroom/room.go:77-79 | PlayTurn acts as the user's seat, or NoPlayerId for an unknown user |
| ServerRoom.Room.AssignPlayerIds | server/internal/serverroom/room.go:95-124 | no error iff teams balanced; otherwise no change. On success only the seats change, and the seating is proper |
| ServerRoom.Room.StartGame | server/internal/serverroom/room.go:81-93 | started or unbalanced: the error, nothing changed. Otherwise users are seated properly and the game starts with a new hand; `started` stays |
| ServerRoom.Room.MarkStarted | server/internal/serverroom/room.go:19 | the room is marked started |
| ServerRoom.Room.StartGameOnce | server/internal/serverroom/room.go:81-93 | as StartGame, and a successful start sets `started` |
| ServerRoom.RestartAsWritten | server/internal/serverroom/room.go:81-93 | as written, StartGame on a room whose game is in progress succeeds, replaces the hand and leaves `started` false |
| ServerRoom.RestartRefused | server/internal/serverroom/room.go:41-93 | once the corrected start has run, a second start, a new user and a team change are all refused |
| Room.TeamsOf | server/internal/room/room.go:28-33 | one team entry per user |
| Room.SeatsOf | server/internal/room/room.go:28-33 | one seat entry per user |
| Room.WithSeats | server/internal/room/room.go:192 | every user keeps their record, with the drawn seat |
| Room.WithSeatsKeepsTeams | server/internal/room/room.go:173-193 | seating users keeps every team, and their seats are the drawn ones |
| Room.Room.NewRoom | server/internal/room/room.go:42-50 | an empty, unstarted room whose new game is Ready with no hand |
| Room.Room.Join | server/internal/room/room.go:52-76 | known token: no error, no change. Started: GameAlreadyStarted. Four users: RoomFull. Otherwise the user joins Team1 with no seat, with connection and name |
| Room.Room.ChooseTeam | server/internal/room/room.go:78-99 | unknown token: PlayerNotFound. Started: GameAlreadyStarted. Otherwise only the team changes |
| Room.Room.UpdateUserConnection | server/internal/room/room.go:125-142 | unknown token: PlayerNotFound. Otherwise only that user's connection changes, started or not |
| Room.Room.TurnPlayer | server/internal/room/room.go:101-106 | PlayTurn acts as the user's seat, or NoPlayerId for an unknown token |
| Room.Room.AssignPlayerIds | server/internal/room/room.go:166-195 | no error iff teams balanced; otherwise no change. On success only the seats change, and the seating is proper |
| Room.Room.StartGame | server/internal/room/room.go:108-123 | started or unbalanced: the error, nothing changed. Otherwise users are seated properly and the game starts with a new hand; `started` stays |
| Room.Room.MarkStarted | server/internal/room/room.go:19 | the room is marked started |
| Room.Room.StartGameOnce | server/internal/room/room.go:108-123 | as StartGame, and a successful start sets `started` |
| Room.RestartAsWritten | server/internal/room/room.go:108-123 | as written, StartGame on a room whose game is in progress succeeds, replaces the hand and leaves `started` false |
| Room.RestartRefused | server/internal/room/room.go:52-123 | once the corrected start has run, a second start, a new user and a team change are all refused |
| RoomManager.DecimalDigits | server/internal/room/manager.go:25 | the decimal text of a natural number is non-empty and made of digits |
| RoomManager.DecimalRoundTrip | server/internal/room/manager.go:25 | reading the digits of n gives back n |
| RoomManager.ItoaRoundTrip | server/internal/room/manager.go:25 | reading back strconv.Itoa's text of any integer gives that integer |
| RoomManager.ItoaInjective | server/internal/room/manager.go:25 | different integers have different decimal texts |
| RoomManager.FirstIdText | server/internal/room/manager.go:15-20 | the first id reads "1", and no later id does |
| RoomManager.RoomIdGenerator.NewRoomIdGenerator | server/internal/room/manager.go:48-52 | the counter starts at the given value |
| RoomManager.RoomIdGenerator.GetNextRoomId | server/internal/room/manager.go:54-58 | returns the current value and moves the counter one past it |
| RoomManager.RoomManager.NewRoomManager | server/internal/room/manager.go:15-20 | no rooms, and the counter starts at 1 |
| RoomManager.RoomManager.CreateRoom | server/internal/room/manager.go:22-29 | a fresh empty room, filed under the decimal text of the counter, which moves by one. The id was never issued before, even if deleted; other rooms stay |
| RoomManager.RoomManager.GetRoom | server/internal/room/manager.go:31-36 | found iff the id is filed, and then it is the room with that id |
| RoomManager.RoomManager.DeleteRoom | server/internal/room/manager.go:38-42 | only that id is removed; an unknown id changes nothing; the invariant holds |
| RoomManager.CreateDeleteCreate | server/internal/room/manager.go:22-42 | a fresh manager creates room "1"; after it is deleted, the next room is "2" |

## Left out

- Randomness: `rand.Perm` is the `perm` parameter of ShuffleDeck, NewRandomDealer, Game.Start and the room starts. `rand.IntN(2)` is an arbitrary boolean. No distribution is modelled.
- Go's map iteration order is a parameter: GetTrickResult's `order`, which Hand.Hand.PlayCard and Game.BeloteGame.PlayCard take as well, and a `:|` pick in CheckBalance and AssignSeats. TrickResultIndependentOfOrder shows that every order gives the same result for a trick without a repeated card. PlayCard guarantees such a trick for a deck without repeats (DistinctTrickCards).
- Panics are preconditions:
  - a deck too short for the deal (`Deals`, `Supplies`);
  - a seat outside 1..4 in playerToString;
  - the empty string in stringToCard, where Go's slice `s[0:-1]` panics;
  - the impossible case of checkIsTrumpSelectionTurnFor.
- A Jack on top of the full deck makes NewHand panic in dealCards, since the four hands then need 32 more cards from 31. The model keeps that behaviour as a precondition and does not count it as a finding: the engine states no intended deal for it.
- Card.String (game/card.go:34-36), Trick.GetTableCards (game/trick.go:88-90) and the Hand getters (game/hand.go:138-166) only read fields. The model reads the fields directly.
- The Dealer interface (game/hand.go:21-23) is the sequence of cards still to be dealt. The BeloteGame always uses RandomDealer.
- Mutexes in both room packages and the manager are left out: every method is one sequential step. Concurrency is not modelled.
- BroadcastState, the JSON state dumps and the message sender (server/internal/room/room.go:144-164) are left out. The connection is an opaque handle (`Conn`), whose only property is being stored and replaced.
- PlayTurn hands the user's seat to a game command. The commands are not part of this model. TurnPlayer states the seat handed over.
- In assignPlayerIds Go writes each user's record back inside the loop. The model writes all seats back once after the draw. The resulting map is the same, since each user is visited once.
- CliUtils.ToUpper: rewrites only the ASCII letters and the two non-ASCII letters whose upper case is ASCII (the long s to S, the dotless i to I). Other non-ASCII bytes stay as they are, where Go writes other non-ASCII text. The two agree on which ASCII text results, not byte for byte.
- ClientPlayerId: JavaScript numbers are taken as integers. Values beyond 2^53 and fractions are not modelled.
- ClientPlayerId.AgreesWithServer: compares with getNextPlayerId and getPreviousPlayerId on unbounded integers. Go's int64 wrap-around of `id+1` at MaxInt64 and of `id-2` near MinInt64 is not modelled.
- Hand.Hand.SelectTrump: the suit is one of the four. In Go a Suit is an open string that the trump command does not validate. An unknown suit becomes trump, so no card is trump: the hand is then worth 120 points and the must-trump rule never applies. The closed Suit type excludes this case.
- Game.BeloteGame.SelectTrump: the same closed Suit; an unknown suit, which Go passes on from the command unchecked, is not modelled.
- RoomManager.RoomIdGenerator.GetNextRoomId: Go's `int` counter is unbounded here. Wrap-around after 2^63 rooms is not modelled.
- The other functions of cli/utils.go (lines 1-64), which read from the terminal, are not part of this model.

## Findings

| source | as written | input that shows it | evidently intended | confidence | as-written member | corrected member |
|---|---|---|---|---|---|---|
| game/card.go:27 | NUM_CARD_VALUES is 4, so MAX_DECK_SIZE (dealer.go:13) is 16 and the deck holds only ranks 7 to 10 | any shuffle: NewHand needs 21 cards for its initial deal and panics | eight card values, a 32-card deck | not executed | Game.SixteenCardsNeverSupply | Game.FullDeckDeals |
| game/trick.go:157-171 | getHighestTrumpInTrick computes the highest trump and then returns nil, so the over-trump rule never runs | trump Diamonds; table Hearts-8, Diamonds-Q; hand {Diamonds-K, Diamonds-8}; playing Diamonds-8 is accepted | return the highest trump found | not executed | TrickScenarios.ScenarioHigherTrumpError | Trick.Trick.HighestTrumpInTrick |
| game/trick.go:101-104 | a card of the lead suit is accepted at once, also when trump was led, so the over-trump rule is skipped on a trump lead | trump Diamonds; table Diamonds-Q; hand {Diamonds-8, Diamonds-K}; playing Diamonds-8 is accepted | on a trump lead, still check the over-trump rule | not executed | TrickScenarios.ScenarioTrumpLedHigherError | Trick.ValidateCardIsLegalPlay |
| server/internal/serverroom/room.go:81-93 | StartGame never sets `started`, so the guards on lines 49, 69 and 82 never fire | StartGame on a balanced room whose game is in progress succeeds again and deals a new hand | set `started` after a successful start | not executed | ServerRoom.RestartAsWritten | ServerRoom.Room.StartGameOnce |
| server/internal/room/room.go:108-123 | StartGame never sets `started`, so the guards of Join, ChooseTeam and StartGame never fire | StartGame on a balanced room whose game is in progress succeeds again and deals a new hand | set `started` after a successful start | not executed | Room.RestartAsWritten | Room.Room.StartGameOnce |
