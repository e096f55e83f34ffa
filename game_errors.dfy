/**
 * The errors of the rules engine. The Go code builds them with `fmt.Errorf`,
 * so they are only told apart by their message; here each message is one
 * constructor.
 */
module GameErrors {

  datatype GameError =
    // dealer.go
    | DeckEmpty
    // trick.go
    | TrickIsFinished
    | NotPlayersTurn
    | CardNotOwned
    | MustFollowLeadSuit
    | MustPlayTrump
    | MustPlayHigherTrump
    | TrickNotFinished
    // hand.go
    | HandNotInProgress
    | TableTrumpSelectionNotInProgress
    | FreeTrumpSelectionNotInProgress
    | AlreadySelected
    | NotSelectionTurn
    | AllPlayersSelected
    | LastPlayerMustChoose
    | SameSuitAsTableTrump
    | HandIsFinished
    // game.go
    | GameNotInProgress
}
