/**
 * The sixteen validateCard scenarios of game/trick_test.go, each decided by
 * validateCard as written and by the corrected version.  Two of them
 * (lines 140-156 and 207-222) expect the over-trump error, which the code as
 * written never reports; the first needs only the corrected lookup, the
 * second also the over-trump check on a trump lead.
 */
module TrickScenarios {
  import opened Wrappers
  import opened Cards
  import opened Players
  import opened GameErrors
  import opened Trick

  /** A trick led by Player1 with Diamonds as trump, as in every scenario. */
  function Led(cards: map<PlayerId, Card>): TrickView
  {
    TrickView(Player1, cards, Diamonds)
  }

  /** The cards on a table where Player1 and Player2 have played. */
  lemma PlayedByTwo(a: Card, b: Card)
    ensures PlayedCards(Led(map[Player1 := a, Player2 := b])) == {a, b}
  {
    var m := map[Player1 := a, Player2 := b];
    assert a == m[Player1] && b == m[Player2];
    assert a in PlayedCards(Led(m)) && b in PlayedCards(Led(m));
  }

  lemma ScenarioCardNotOwned()
    ensures ValidateCardAsWritten(Led(map[]), Card(Hearts, Ace), {Card(Spades, Ace)}) == Some(CardNotOwned)
    ensures ValidateCard(Led(map[]), Card(Hearts, Ace), {Card(Spades, Ace)}) == Some(CardNotOwned)
  {
  }

  lemma ScenarioFirstCard()
    ensures ValidateCardAsWritten(Led(map[]), Card(Clubs, Ace), {Card(Clubs, Ace)}) == None
    ensures ValidateCard(Led(map[]), Card(Clubs, Ace), {Card(Clubs, Ace)}) == None
  {
  }

  lemma ScenarioFollowLeadSuccess()
    ensures var v := Led(map[Player1 := Card(Clubs, Seven), Player2 := Card(Diamonds, Nine)]);
      var held := {Card(Clubs, Queen), Card(Diamonds, Jack)};
      ValidateCardAsWritten(v, Card(Clubs, Queen), held) == None
      && ValidateCard(v, Card(Clubs, Queen), held) == None
  {
  }

  lemma ScenarioFollowLeadError()
    ensures var v := Led(map[Player1 := Card(Hearts, Seven), Player2 := Card(Diamonds, Eight)]);
      var held := {Card(Hearts, Ace), Card(Diamonds, Ten)};
      ValidateCardAsWritten(v, Card(Diamonds, Ten), held) == Some(MustFollowLeadSuit)
      && ValidateCard(v, Card(Diamonds, Ten), held) == Some(MustFollowLeadSuit)
  {
    assert Card(Hearts, Ace) in {Card(Hearts, Ace), Card(Diamonds, Ten)};
  }

  lemma ScenarioMustPlayTrumpSuccess()
    ensures var v := Led(map[Player1 := Card(Hearts, Seven)]);
      var held := {Card(Clubs, Eight), Card(Diamonds, Eight)};
      ValidateCardAsWritten(v, Card(Diamonds, Eight), held) == None
      && ValidateCard(v, Card(Diamonds, Eight), held) == None
  {
  }

  lemma ScenarioMustPlayTrumpError()
    ensures var v := Led(map[Player1 := Card(Hearts, Seven)]);
      var held := {Card(Clubs, Eight), Card(Diamonds, Eight)};
      ValidateCardAsWritten(v, Card(Clubs, Eight), held) == Some(MustPlayTrump)
      && ValidateCard(v, Card(Clubs, Eight), held) == Some(MustPlayTrump)
  {
    assert Card(Diamonds, Eight) in {Card(Clubs, Eight), Card(Diamonds, Eight)};
  }

  lemma ScenarioCanPlayAnything()
    ensures var v := Led(map[Player1 := Card(Clubs, Ten)]);
      var held := {Card(Hearts, Nine), Card(Spades, Jack)};
      ValidateCardAsWritten(v, Card(Hearts, Nine), held) == None
      && ValidateCard(v, Card(Hearts, Nine), held) == None
  {
  }

  lemma ScenarioHigherTrumpSuccess()
    ensures var v := Led(map[Player1 := Card(Hearts, Eight), Player2 := Card(Diamonds, Queen)]);
      var held := {Card(Diamonds, King), Card(Diamonds, Eight)};
      ValidateCardAsWritten(v, Card(Diamonds, King), held) == None
      && ValidateCard(v, Card(Diamonds, King), held) == None
  {
  }

  /** The test expects the over-trump error; as written the play is accepted. */
  lemma ScenarioHigherTrumpError()
    ensures var v := Led(map[Player1 := Card(Hearts, Eight), Player2 := Card(Diamonds, Queen)]);
      var held := {Card(Diamonds, King), Card(Diamonds, Eight)};
      ValidateCardAsWritten(v, Card(Diamonds, Eight), held) == None
      && ValidateCardCorrectedLookup(v, Card(Diamonds, Eight), held) == Some(MustPlayHigherTrump)
      && ValidateCard(v, Card(Diamonds, Eight), held) == Some(MustPlayHigherTrump)
  {
    var v := Led(map[Player1 := Card(Hearts, Eight), Player2 := Card(Diamonds, Queen)]);
    var held := {Card(Diamonds, King), Card(Diamonds, Eight)};
    assert Card(Diamonds, King) in held;
    PlayedByTwo(Card(Hearts, Eight), Card(Diamonds, Queen));
    HighestTrumpUnique(Some(Queen), PlayedCards(v), Diamonds);
    HighestTrumpUnique(Some(King), held, Diamonds);
  }

  lemma ScenarioNoHigherTrumpSuccess()
    ensures var v := Led(map[Player1 := Card(Spades, Ace), Player2 := Card(Diamonds, Queen)]);
      var held := {Card(Diamonds, Eight), Card(Clubs, Ten)};
      ValidateCardAsWritten(v, Card(Diamonds, Eight), held) == None
      && ValidateCard(v, Card(Diamonds, Eight), held) == None
  {
    var v := Led(map[Player1 := Card(Spades, Ace), Player2 := Card(Diamonds, Queen)]);
    var held := {Card(Diamonds, Eight), Card(Clubs, Ten)};
    PlayedByTwo(Card(Spades, Ace), Card(Diamonds, Queen));
    HighestTrumpUnique(Some(Queen), PlayedCards(v), Diamonds);
    HighestTrumpUnique(Some(Eight), held, Diamonds);
  }

  lemma ScenarioNoHigherTrumpError()
    ensures var v := Led(map[Player1 := Card(Clubs, Ace), Player2 := Card(Diamonds, Queen)]);
      var held := {Card(Diamonds, Eight), Card(Spades, Ten)};
      ValidateCardAsWritten(v, Card(Spades, Ten), held) == Some(MustPlayTrump)
      && ValidateCard(v, Card(Spades, Ten), held) == Some(MustPlayTrump)
  {
    assert Card(Diamonds, Eight) in {Card(Diamonds, Eight), Card(Spades, Ten)};
  }

  lemma ScenarioTrumpLedHigherSuccess()
    ensures var v := Led(map[Player1 := Card(Diamonds, Queen)]);
      var held := {Card(Diamonds, Eight), Card(Diamonds, King)};
      ValidateCardAsWritten(v, Card(Diamonds, King), held) == None
      && ValidateCard(v, Card(Diamonds, King), held) == None
  {
  }

  /**
   * The test expects the over-trump error; as written, and with only the
   * lookup corrected, the lead-suit shortcut accepts the lower trump.
   */
  lemma ScenarioTrumpLedHigherError()
    ensures var v := Led(map[Player1 := Card(Diamonds, Queen)]);
      var held := {Card(Diamonds, Eight), Card(Diamonds, King)};
      ValidateCardAsWritten(v, Card(Diamonds, Eight), held) == None
      && ValidateCardCorrectedLookup(v, Card(Diamonds, Eight), held) == None
      && ValidateCard(v, Card(Diamonds, Eight), held) == Some(MustPlayHigherTrump)
  {
    var v := Led(map[Player1 := Card(Diamonds, Queen)]);
    var held := {Card(Diamonds, Eight), Card(Diamonds, King)};
    assert PlayedCards(v) == {Card(Diamonds, Queen)};
    HighestTrumpUnique(Some(Queen), PlayedCards(v), Diamonds);
    HighestTrumpUnique(Some(King), held, Diamonds);
  }

  lemma ScenarioTrumpLedNoHigherSuccess()
    ensures var v := Led(map[Player1 := Card(Diamonds, Queen)]);
      var held := {Card(Diamonds, Eight), Card(Clubs, Eight)};
      ValidateCardAsWritten(v, Card(Diamonds, Eight), held) == None
      && ValidateCard(v, Card(Diamonds, Eight), held) == None
  {
    var v := Led(map[Player1 := Card(Diamonds, Queen)]);
    var held := {Card(Diamonds, Eight), Card(Clubs, Eight)};
    assert PlayedCards(v) == {Card(Diamonds, Queen)};
    HighestTrumpUnique(Some(Queen), PlayedCards(v), Diamonds);
    HighestTrumpUnique(Some(Eight), held, Diamonds);
  }

  lemma ScenarioTrumpLedNoHigherError()
    ensures var v := Led(map[Player1 := Card(Diamonds, Queen)]);
      var held := {Card(Diamonds, Eight), Card(Clubs, Eight)};
      ValidateCardAsWritten(v, Card(Clubs, Eight), held) == Some(MustFollowLeadSuit)
      && ValidateCard(v, Card(Clubs, Eight), held) == Some(MustFollowLeadSuit)
  {
    assert Card(Diamonds, Eight) in {Card(Diamonds, Eight), Card(Clubs, Eight)};
  }

  lemma ScenarioTrumpLedNoTrump()
    ensures var v := Led(map[Player1 := Card(Diamonds, Queen)]);
      ValidateCardAsWritten(v, Card(Hearts, Ace), {Card(Hearts, Ace)}) == None
      && ValidateCard(v, Card(Hearts, Ace), {Card(Hearts, Ace)}) == None
  {
  }
}
