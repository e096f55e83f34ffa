/**
 * One trick of game/trick.go: whose turn it is, which card a player may
 * play, and who wins the trick with how many points.
 *
 * The pure rules are functions on a `TrickView` value; the `Trick` class
 * holds the one field the source updates in place, the map of played cards.
 */
module Trick {
  import opened Wrappers
  import opened Cards
  import opened Players
  import opened GameErrors

  /** What a trick holds: who led, which seat played which card, and the trump suit. */
  datatype TrickView = TrickView(startingPlayer: PlayerId, cards: map<PlayerId, Card>, trump: Suit)

  datatype TrickResult = TrickResult(winnerPlayer: PlayerId, points: int)

  /** The cards were played in turn, going round the table from the starting player. */
  predicate WellFormed(v: TrickView)
  {
    v.startingPlayer in Seats && InTurn(v.startingPlayer, v.cards.Keys)
  }

  /** No card lies twice on the table. */
  predicate DistinctTrickCards(v: TrickView)
  {
    forall p, q :: p in v.cards && q in v.cards && p != q ==> v.cards[p] != v.cards[q]
  }

  /** IsFinished (trick.go:71-78): every seat has played. */
  predicate IsFinishedOf(v: TrickView)
  {
    Player1 in v.cards && Player2 in v.cards && Player3 in v.cards && Player4 in v.cards
  }

  /** The trick once `player` has laid `card` on it. */
  function Played(v: TrickView, player: PlayerId, card: Card): TrickView
  {
    v.(cards := v.cards[player := card])
  }

  /** GetCurrentTurn (trick.go:80-86). */
  function CurrentTurnOf(v: TrickView): Result<PlayerId, GameError>
  {
    if IsFinishedOf(v) then Err(TrickIsFinished) else Ok(TurnSeat(v.startingPlayer, |v.cards|))
  }

  /** A trick played in turn is finished exactly when it holds four cards. */
  lemma FinishedIffFull(v: TrickView)
    requires WellFormed(v)
    ensures IsFinishedOf(v) <==> |v.cards| == NUM_PLAYERS
  {
    InTurnFull(v.startingPlayer, v.cards.Keys);
  }

  /**
   * The turn passes round the table: a fresh trick is led by its starting
   * player, then each turn is the seat after the one that played last, a
   * seat that has not played yet.  A finished trick has no turn.
   */
  lemma CurrentTurnGoesRound(v: TrickView)
    requires WellFormed(v)
    ensures IsFinishedOf(v) <==> CurrentTurnOf(v) == Err(TrickIsFinished)
    ensures CurrentTurnOf(v).Ok? ==>
      var p := CurrentTurnOf(v).value;
      p in Seats && p !in v.cards
      && (|v.cards| == 0 ==> p == v.startingPlayer)
      && (|v.cards| > 0 ==> p == GetNextPlayerId(TurnSeat(v.startingPlayer, |v.cards| - 1)))
  {
    FinishedIffFull(v);
    if !IsFinishedOf(v) {
      TurnSeatFacts(v.startingPlayer, |v.cards|);
      if |v.cards| > 0 {
        TurnSeatFacts(v.startingPlayer, |v.cards| - 1);
      }
    }
  }

  /**
   * getOriginalSuit (trick.go:153-155): the suit of the starting player's
   * card.  Go reads the zero card, whose suit matches nothing, when that
   * player has not played; that is `None` here.
   */
  function LeadSuit(v: TrickView): Option<Suit>
  {
    if v.startingPlayer in v.cards then Some(v.cards[v.startingPlayer].suit) else None
  }

  /** hasCardOfSuit (trick.go:144-151) as a property of the set of held cards. */
  predicate HasSuit(held: set<Card>, s: Suit)
  {
    exists c :: c in held && c.suit == s
  }

  /** The player holds a card of the lead suit (never, when there is no lead card). */
  predicate HoldsLead(held: set<Card>, lead: Option<Suit>)
  {
    lead.Some? && HasSuit(held, lead.value)
  }

  /** `r` is the highest trump rank among `cs`, or `None` when `cs` holds no trump. */
  predicate IsHighestTrump(r: Option<Rank>, cs: set<Card>, trump: Suit)
  {
    (r.None? ==> forall c :: c in cs ==> c.suit != trump)
    && (r.Some? ==>
          Card(trump, r.value) in cs
          && forall c :: c in cs && c.suit == trump ==> TrumpOrderIndex(c.rank) <= TrumpOrderIndex(r.value))
  }

  /** The highest trump of `cs` whose order index is below `k`. */
  function HighestTrumpBelow(cs: set<Card>, trump: Suit, k: nat): (r: Option<Rank>)
    requires k <= 8
    ensures r.None? ==> forall c :: c in cs && c.suit == trump ==> TrumpOrderIndex(c.rank) >= k
    ensures r.Some? ==>
      Card(trump, r.value) in cs && TrumpOrderIndex(r.value) < k
      && forall c :: c in cs && c.suit == trump && TrumpOrderIndex(c.rank) < k ==> TrumpOrderIndex(c.rank) <= TrumpOrderIndex(r.value)
    decreases k
  {
    OrderIndexBijective(true);
    if k == 0 then None
    else
      var top := RanksInOrder(true)[k - 1];
      assert TrumpOrderIndex(top) == k - 1;
      if Card(trump, top) in cs then Some(top) else HighestTrumpBelow(cs, trump, k - 1)
  }

  /** The highest trump rank in a set of cards. */
  function HighestTrumpOf(cs: set<Card>, trump: Suit): (r: Option<Rank>)
    ensures IsHighestTrump(r, cs, trump)
  {
    HighestTrumpBelow(cs, trump, 8)
  }

  /** The highest trump is determined by the cards: anything with its defining property equals it. */
  lemma HighestTrumpUnique(r: Option<Rank>, cs: set<Card>, trump: Suit)
    requires IsHighestTrump(r, cs, trump)
    ensures r == HighestTrumpOf(cs, trump)
  {
    OrderIndexBijective(true);
    var h := HighestTrumpOf(cs, trump);
    if r.Some? {
      assert Card(trump, r.value) in cs;
      assert TrumpOrderIndex(h.value) == TrumpOrderIndex(r.value);
    }
  }

  /** The cards lying on the table. */
  function PlayedCards(v: TrickView): set<Card>
  {
    set p | p in v.cards :: v.cards[p]
  }

  /**
   * validateHigherTrumpRule (trick.go:127-142): a player holding a trump
   * above the highest trump played may not play a trump below it.
   */
  function HigherTrumpRule(held: set<Card>, trump: Suit, card: Card, highestInTrick: Rank): Option<GameError>
  {
    var playersHighest := HighestTrumpOf(held, trump);
    if playersHighest.None? || card.suit != trump then None
    else if TrumpOrderIndex(playersHighest.value) > TrumpOrderIndex(highestInTrick)
         && TrumpOrderIndex(card.rank) < TrumpOrderIndex(highestInTrick)
    then Some(MustPlayHigherTrump)
    else None
  }

  /**
   * The decision chain of validateCard (trick.go:92-125), with the result
   * of getHighestTrumpInTrick passed in as `highestPlayed`.
   */
  function ValidateWith(v: TrickView, card: Card, held: set<Card>, highestPlayed: Option<Rank>): Option<GameError>
  {
    if card !in held then Some(CardNotOwned)
    else if |v.cards| == 0 then None
    else if LeadSuit(v) == Some(card.suit) then None
    else if HoldsLead(held, LeadSuit(v)) then Some(MustFollowLeadSuit)
    else if !HasSuit(held, v.trump) then None
    else if card.suit != v.trump then Some(MustPlayTrump)
    else if highestPlayed.Some? then HigherTrumpRule(held, v.trump, card, highestPlayed.value)
    else None
  }

  /** validateCard as written: getHighestTrumpInTrick always returns nil (trick.go:170). */
  function ValidateCardAsWritten(v: TrickView, card: Card, held: set<Card>): Option<GameError>
  {
    ValidateWith(v, card, held, None)
  }

  /** validateCard with getHighestTrumpInTrick returning the highest trump it computes. */
  function ValidateCardCorrectedLookup(v: TrickView, card: Card, held: set<Card>): Option<GameError>
  {
    ValidateWith(v, card, held, HighestTrumpOf(PlayedCards(v), v.trump))
  }

  /**
   * validateCard with both corrections: the lookup returns the highest
   * trump played, and when trump is led a trump is still checked against
   * the over-trump rule instead of being accepted as a lead-suit card.
   */
  function ValidateCard(v: TrickView, card: Card, held: set<Card>): Option<GameError>
  {
    if card in held && |v.cards| > 0 && LeadSuit(v) == Some(v.trump) && card.suit == v.trump then
      assert v.cards[v.startingPlayer] in PlayedCards(v);
      HigherTrumpRule(held, v.trump, card, HighestTrumpOf(PlayedCards(v), v.trump).value)
    else
      ValidateCardCorrectedLookup(v, card, held)
  }

  /**
   * A trump must beat the table when it can: some trump already played
   * ranks above `card`, and the player holds a trump above every trump played.
   */
  predicate MustOvertrump(v: TrickView, card: Card, held: set<Card>)
  {
    (exists p :: p in v.cards && v.cards[p].suit == v.trump && TrumpOrderIndex(card.rank) < TrumpOrderIndex(v.cards[p].rank))
    && (exists c :: c in held && c.suit == v.trump
          && forall q :: q in v.cards && v.cards[q].suit == v.trump ==> TrumpOrderIndex(v.cards[q].rank) < TrumpOrderIndex(c.rank))
  }

  /**
   * The rules of play, stated independently of the decision chain: the card
   * is held; on a trick already led, a player holding the lead suit follows
   * it, a player void in it who holds trump plays trump, and a trump goes
   * above the table's trumps when the player can do so.
   */
  predicate LegalPlay(v: TrickView, card: Card, held: set<Card>)
  {
    card in held
    && (|v.cards| > 0 ==>
          (HoldsLead(held, LeadSuit(v)) ==> LeadSuit(v) == Some(card.suit))
          && (!HoldsLead(held, LeadSuit(v)) && HasSuit(held, v.trump) ==> card.suit == v.trump)
          && (card.suit == v.trump ==> !MustOvertrump(v, card, held)))
  }

  /** Given `highest` is the highest trump played, the over-trump rule fires exactly when MustOvertrump holds. */
  lemma HigherTrumpRuleMeansOvertrump(v: TrickView, card: Card, held: set<Card>, highest: Rank)
    requires card in held && card.suit == v.trump
    requires IsHighestTrump(Some(highest), PlayedCards(v), v.trump)
    ensures HigherTrumpRule(held, v.trump, card, highest) == Some(MustPlayHigherTrump) <==> MustOvertrump(v, card, held)
    ensures HigherTrumpRule(held, v.trump, card, highest) in {None, Some(MustPlayHigherTrump)}
  {
    var ph := HighestTrumpOf(held, v.trump);
    assert ph.Some? by { assert card in held; }
    var hp :| hp in v.cards && v.cards[hp] == Card(v.trump, highest);
    if MustOvertrump(v, card, held) {
      var c :| c in held && c.suit == v.trump
        && forall q :: q in v.cards && v.cards[q].suit == v.trump ==> TrumpOrderIndex(v.cards[q].rank) < TrumpOrderIndex(c.rank);
      assert TrumpOrderIndex(highest) < TrumpOrderIndex(c.rank);
      var p :| p in v.cards && v.cards[p].suit == v.trump && TrumpOrderIndex(card.rank) < TrumpOrderIndex(v.cards[p].rank);
      assert v.cards[p] in PlayedCards(v);
    }
    if HigherTrumpRule(held, v.trump, card, highest) == Some(MustPlayHigherTrump) {
      assert Card(v.trump, ph.value) in held;
      forall q | q in v.cards && v.cards[q].suit == v.trump
        ensures TrumpOrderIndex(v.cards[q].rank) < TrumpOrderIndex(ph.value)
      {
        assert v.cards[q] in PlayedCards(v);
      }
      assert v.cards[hp].suit == v.trump && TrumpOrderIndex(card.rank) < TrumpOrderIndex(v.cards[hp].rank);
    }
  }

  /** When no trump has been played the over-trump rule cannot apply. */
  lemma NoTrumpPlayedNoOvertrump(v: TrickView, card: Card, held: set<Card>)
    requires HighestTrumpOf(PlayedCards(v), v.trump).None?
    ensures !MustOvertrump(v, card, held)
  {
    forall p | p in v.cards
      ensures v.cards[p].suit != v.trump
    {
      assert v.cards[p] in PlayedCards(v);
    }
  }

  /** The corrected validateCard accepts a card exactly when the rules of play allow it. */
  lemma ValidateCardIsLegalPlay(v: TrickView, card: Card, held: set<Card>)
    ensures ValidateCard(v, card, held).None? <==> LegalPlay(v, card, held)
  {
    var highest := HighestTrumpOf(PlayedCards(v), v.trump);
    if card in held && |v.cards| > 0 && card.suit == v.trump {
      if highest.Some? {
        HigherTrumpRuleMeansOvertrump(v, card, held, highest.value);
      } else {
        NoTrumpPlayedNoOvertrump(v, card, held);
      }
    }
  }

  /** Which error the corrected validateCard reports, for each way a card can break the rules. */
  lemma ValidateCardErrors(v: TrickView, card: Card, held: set<Card>)
    ensures ValidateCard(v, card, held) == Some(CardNotOwned) <==> card !in held
    ensures ValidateCard(v, card, held) == Some(MustFollowLeadSuit) <==>
      card in held && |v.cards| > 0 && HoldsLead(held, LeadSuit(v)) && LeadSuit(v) != Some(card.suit)
    ensures ValidateCard(v, card, held) == Some(MustPlayTrump) <==>
      card in held && |v.cards| > 0 && !HoldsLead(held, LeadSuit(v)) && HasSuit(held, v.trump) && card.suit != v.trump
    ensures ValidateCard(v, card, held) == Some(MustPlayHigherTrump) <==>
      card in held && |v.cards| > 0 && card.suit == v.trump && MustOvertrump(v, card, held)
      && (LeadSuit(v) == Some(v.trump) || !HoldsLead(held, LeadSuit(v)))
    ensures ValidateCard(v, card, held) in {None, Some(CardNotOwned), Some(MustFollowLeadSuit), Some(MustPlayTrump), Some(MustPlayHigherTrump)}
  {
    var highest := HighestTrumpOf(PlayedCards(v), v.trump);
    if card in held && |v.cards| > 0 && card.suit == v.trump {
      if highest.Some? {
        HigherTrumpRuleMeansOvertrump(v, card, held, highest.value);
      } else {
        NoTrumpPlayedNoOvertrump(v, card, held);
      }
    }
  }

  /**
   * As written, validateCard never reports the over-trump error; apart from
   * that it decides every play as the corrected version does.
   */
  lemma AsWrittenOnlyMissesOvertrump(v: TrickView, card: Card, held: set<Card>)
    ensures ValidateCardAsWritten(v, card, held)
      == if ValidateCard(v, card, held) == Some(MustPlayHigherTrump) then None else ValidateCard(v, card, held)
  {
    var highest := HighestTrumpOf(PlayedCards(v), v.trump);
    if card in held && |v.cards| > 0 && card.suit == v.trump && highest.Some? {
      HigherTrumpRuleMeansOvertrump(v, card, held, highest.value);
    }
  }

  /** The error PlayCard (trick.go:24-41) reports, or `None` when the card is played. */
  function PlayCardError(v: TrickView, player: PlayerId, card: Card, held: set<Card>): Option<GameError>
  {
    match CurrentTurnOf(v)
    case Err(e) => Some(e)
    case Ok(p) => if p != player then Some(NotPlayersTurn) else ValidateCard(v, card, held)
  }

  /** A play succeeds exactly when the trick is open, it is the player's turn and the card is legal. */
  lemma PlayCardSucceedsIff(v: TrickView, player: PlayerId, card: Card, held: set<Card>)
    ensures PlayCardError(v, player, card, held).None? <==>
      !IsFinishedOf(v) && player == TurnSeat(v.startingPlayer, |v.cards|) && LegalPlay(v, card, held)
  {
    ValidateCardIsLegalPlay(v, card, held);
  }

  /** Playing the next seat's card keeps the trick played in turn. */
  lemma WellFormedAfterPlay(v: TrickView, card: Card)
    requires WellFormed(v) && !IsFinishedOf(v)
    ensures TurnSeat(v.startingPlayer, |v.cards|) !in v.cards
    ensures WellFormed(v.(cards := v.cards[TurnSeat(v.startingPlayer, |v.cards|) := card]))
  {
    FinishedIffFull(v);
    InTurnAdd(v.startingPlayer, v.cards.Keys);
    var p := TurnSeat(v.startingPlayer, |v.cards|);
    assert v.cards[p := card].Keys == v.cards.Keys + {p};
  }

  // ---- The result of a finished trick ----

  /** The points a card is worth: trump points in the trump suit, otherwise non-trump points. */
  function CardPoints(c: Card, trump: Suit): nat
  {
    if c.suit == trump then TrumpPoints(c.rank) else NonTrumpPoints(c.rank)
  }

  /** The scan of GetTrickResult replaces the best card by `card` (trick.go:58-65). */
  predicate Better(card: Card, best: Card, trump: Suit)
  {
    if best.suit == trump then card.suit == trump && TrumpOrderIndex(card.rank) > TrumpOrderIndex(best.rank)
    else card.suit == trump || (card.suit == best.suit && NonTrumpOrderIndex(card.rank) > NonTrumpOrderIndex(best.rank))
  }

  /** `order` lists the four seats, each once: an order in which Go may range over a finished trick's map. */
  predicate IsSeatOrder(order: seq<PlayerId>)
  {
    multiset(order) == multiset(SeatOrder)
  }

  predicate AllPlayed(v: TrickView, order: seq<PlayerId>)
  {
    forall i :: 0 <= i < |order| ==> order[i] in v.cards
  }

  /** The owner of the best card after scanning `order`, starting from `best`. */
  function ScanWinner(v: TrickView, best: PlayerId, order: seq<PlayerId>): PlayerId
    requires best in v.cards && AllPlayed(v, order)
    decreases |order|
  {
    if order == [] then best
    else
      var next := if Better(v.cards[order[0]], v.cards[best], v.trump) then order[0] else best;
      ScanWinner(v, next, order[1..])
  }

  /** The points of the cards of the seats in `order`. */
  function SumPointsOf(v: TrickView, order: seq<PlayerId>): int
    requires AllPlayed(v, order)
  {
    if order == [] then 0
    else SumPointsOf(v, order[..|order| - 1]) + CardPoints(v.cards[order[|order| - 1]], v.trump)
  }

  /** One more seat of the scan adds that seat's card to the points. */
  lemma SumPointsStep(v: TrickView, order: seq<PlayerId>, i: int)
    requires AllPlayed(v, order) && 0 <= i < |order|
    ensures SumPointsOf(v, order[..i + 1]) == SumPointsOf(v, order[..i]) + CardPoints(v.cards[order[i]], v.trump)
  {
    assert order[..i + 1][..i] == order[..i];
  }

  /** One more seat of the scan: its card replaces the best card if it is better. */
  lemma ScanWinnerStep(v: TrickView, best: PlayerId, order: seq<PlayerId>, i: int)
    requires best in v.cards && AllPlayed(v, order) && 0 <= i < |order|
    ensures ScanWinner(v, best, order[i..])
      == ScanWinner(v, if Better(v.cards[order[i]], v.cards[best], v.trump) then order[i] else best, order[i + 1..])
  {
    assert order[i..][1..] == order[i + 1..];
  }

  /** The points of a finished trick. */
  function TrickPoints(v: TrickView): int
    requires IsFinishedOf(v)
  {
    SumPointsOf(v, SeatOrder)
  }

  /** The winner of a finished trick, scanning in seat order. */
  function TrickWinner(v: TrickView): PlayerId
    requires WellFormed(v) && IsFinishedOf(v)
  {
    ScanWinner(v, v.startingPlayer, SeatOrder)
  }

  /**
   * The strength of a card in a trick: trumps above everything, then the
   * lead suit, then every other suit at -1.
   */
  function Key(c: Card, lead: Option<Suit>, trump: Suit): int
  {
    if c.suit == trump then 8 + TrumpOrderIndex(c.rank)
    else if lead == Some(c.suit) then NonTrumpOrderIndex(c.rank)
    else -1
  }

  /** Against a trump or lead-suit card, the scan's test is "has a higher key". */
  lemma BetterIsHigherKey(card: Card, best: Card, lead: Option<Suit>, trump: Suit)
    requires Key(best, lead, trump) >= 0
    ensures Better(card, best, trump) <==> Key(card, lead, trump) > Key(best, lead, trump)
  {
  }

  /** Two trump or lead-suit cards with the same key are the same card. */
  lemma KeyInjective(c1: Card, c2: Card, lead: Option<Suit>, trump: Suit)
    requires Key(c1, lead, trump) == Key(c2, lead, trump) >= 0
    ensures c1 == c2
  {
    OrderIndexBijective(true);
    OrderIndexBijective(false);
    assert OrderIndex(c1.rank, c1.suit == trump) == OrderIndex(c2.rank, c1.suit == trump);
  }

  /** The scan ends on a card whose key is at least that of every card scanned. */
  lemma {:induction false} ScanWinnerIsMax(v: TrickView, best: PlayerId, order: seq<PlayerId>)
    requires best in v.cards && AllPlayed(v, order)
    requires Key(v.cards[best], LeadSuit(v), v.trump) >= 0
    ensures ScanWinner(v, best, order) in v.cards
    ensures ScanWinner(v, best, order) == best || ScanWinner(v, best, order) in order
    ensures Key(v.cards[best], LeadSuit(v), v.trump) <= Key(v.cards[ScanWinner(v, best, order)], LeadSuit(v), v.trump)
    ensures forall i :: 0 <= i < |order| ==>
      Key(v.cards[order[i]], LeadSuit(v), v.trump) <= Key(v.cards[ScanWinner(v, best, order)], LeadSuit(v), v.trump)
    decreases |order|
  {
    if order != [] {
      BetterIsHigherKey(v.cards[order[0]], v.cards[best], LeadSuit(v), v.trump);
      var next := if Better(v.cards[order[0]], v.cards[best], v.trump) then order[0] else best;
      ScanWinnerIsMax(v, next, order[1..]);
      forall i | 0 <= i < |order|
        ensures Key(v.cards[order[i]], LeadSuit(v), v.trump) <= Key(v.cards[ScanWinner(v, best, order)], LeadSuit(v), v.trump)
      {
        if i > 0 {
          assert order[i] == order[1..][i - 1];
        }
      }
    }
  }

  /** Scanning a finished trick in any order yields a winner whose key is the largest on the table. */
  lemma WinnerHasMaxKey(v: TrickView, order: seq<PlayerId>)
    requires WellFormed(v) && IsFinishedOf(v) && IsSeatOrder(order)
    ensures AllPlayed(v, order)
    ensures ScanWinner(v, v.startingPlayer, order) in Seats
    ensures forall p :: p in v.cards ==>
      Key(v.cards[p], LeadSuit(v), v.trump) <= Key(v.cards[ScanWinner(v, v.startingPlayer, order)], LeadSuit(v), v.trump)
  {
    forall i | 0 <= i < |order|
      ensures order[i] in v.cards
    {
      assert order[i] in multiset(order);
    }
    ScanWinnerIsMax(v, v.startingPlayer, order);
    var w := ScanWinner(v, v.startingPlayer, order);
    forall p | p in v.cards
      ensures Key(v.cards[p], LeadSuit(v), v.trump) <= Key(v.cards[w], LeadSuit(v), v.trump)
    {
      assert p in multiset(SeatOrder);
      assert p in multiset(order);
      var i :| 0 <= i < |order| && order[i] == p;
    }
  }

  /**
   * The winner of a finished trick does not depend on the order in which
   * the map of cards is scanned.
   */
  lemma WinnerIndependentOfOrder(v: TrickView, o1: seq<PlayerId>, o2: seq<PlayerId>)
    requires WellFormed(v) && IsFinishedOf(v) && DistinctTrickCards(v)
    requires IsSeatOrder(o1) && IsSeatOrder(o2)
    ensures AllPlayed(v, o1) && AllPlayed(v, o2)
    ensures ScanWinner(v, v.startingPlayer, o1) == ScanWinner(v, v.startingPlayer, o2)
  {
    WinnerHasMaxKey(v, o1);
    WinnerHasMaxKey(v, o2);
    var w1 := ScanWinner(v, v.startingPlayer, o1);
    var w2 := ScanWinner(v, v.startingPlayer, o2);
    KeyInjective(v.cards[w1], v.cards[w2], LeadSuit(v), v.trump);
  }

  /**
   * The winning card is the highest trump when a trump was played, and
   * otherwise the highest card of the lead suit.
   */
  lemma WinnerTakesHighestCard(v: TrickView, order: seq<PlayerId>)
    requires WellFormed(v) && IsFinishedOf(v) && IsSeatOrder(order)
    ensures AllPlayed(v, order)
    ensures var w := ScanWinner(v, v.startingPlayer, order);
      w in v.cards
      && ((exists p :: p in v.cards && v.cards[p].suit == v.trump) ==>
        v.cards[w].suit == v.trump
        && forall p :: p in v.cards && v.cards[p].suit == v.trump ==> TrumpOrderIndex(v.cards[p].rank) <= TrumpOrderIndex(v.cards[w].rank))
      && ((forall p :: p in v.cards ==> v.cards[p].suit != v.trump) ==>
        LeadSuit(v) == Some(v.cards[w].suit)
        && forall p :: p in v.cards && LeadSuit(v) == Some(v.cards[p].suit) ==> NonTrumpOrderIndex(v.cards[p].rank) <= NonTrumpOrderIndex(v.cards[w].rank))
  {
    WinnerHasMaxKey(v, order);
    var w := ScanWinner(v, v.startingPlayer, order);
    assert Key(v.cards[v.startingPlayer], LeadSuit(v), v.trump) >= 0;
    if exists p :: p in v.cards && v.cards[p].suit == v.trump {
      var p :| p in v.cards && v.cards[p].suit == v.trump;
      assert Key(v.cards[p], LeadSuit(v), v.trump) >= 8;
    }
  }

  /** Removing one seat from an order removes exactly that card's points. */
  lemma {:induction false} SumPointsRemove(v: TrickView, s: seq<PlayerId>, j: nat)
    requires AllPlayed(v, s) && j < |s|
    ensures AllPlayed(v, s[..j] + s[j + 1..])
    ensures SumPointsOf(v, s) == SumPointsOf(v, s[..j] + s[j + 1..]) + CardPoints(v.cards[s[j]], v.trump)
    decreases |s|
  {
    var rest := s[..j] + s[j + 1..];
    assert forall i :: 0 <= i < |rest| ==> rest[i] in s;
    if j == |s| - 1 {
      assert rest == s[..|s| - 1];
    } else {
      var init := s[..|s| - 1];
      SumPointsRemove(v, init, j);
      assert rest[..|rest| - 1] == init[..j] + init[j + 1..];
      assert rest[|rest| - 1] == s[|s| - 1];
      assert init[j] == s[j];
    }
  }

  /** The points do not depend on the order in which the cards are added up. */
  lemma {:induction false} SumPointsPermutation(v: TrickView, a: seq<PlayerId>, b: seq<PlayerId>)
    requires AllPlayed(v, a) && AllPlayed(v, b) && multiset(a) == multiset(b)
    ensures SumPointsOf(v, a) == SumPointsOf(v, b)
    decreases |a|
  {
    if a == [] {
      assert |multiset(b)| == 0;
    } else {
      var x := a[|a| - 1];
      assert a == a[..|a| - 1] + [x];
      assert x in multiset(b);
      var j :| 0 <= j < |b| && b[j] == x;
      SumPointsRemove(v, b, j);
      assert b == b[..j] + [b[j]] + b[j + 1..];
      assert multiset(b[..j] + b[j + 1..]) == multiset(b) - multiset{x};
      assert multiset(a[..|a| - 1]) == multiset(a) - multiset{x};
      SumPointsPermutation(v, a[..|a| - 1], b[..j] + b[j + 1..]);
    }
  }

  /** A finished trick is worth the same whatever order it is scanned in. */
  lemma PointsIndependentOfOrder(v: TrickView, order: seq<PlayerId>)
    requires WellFormed(v) && IsFinishedOf(v) && IsSeatOrder(order)
    ensures AllPlayed(v, order)
    ensures SumPointsOf(v, order) == TrickPoints(v)
  {
    WinnerHasMaxKey(v, order);
    SumPointsPermutation(v, order, SeatOrder);
  }

  /** The points of a trick are those of its four cards, each at most 20. */
  lemma TrickPointsBounded(v: TrickView)
    requires IsFinishedOf(v)
    ensures TrickPoints(v) == CardPoints(v.cards[Player1], v.trump) + CardPoints(v.cards[Player2], v.trump)
                             + CardPoints(v.cards[Player3], v.trump) + CardPoints(v.cards[Player4], v.trump)
    ensures 0 <= TrickPoints(v) <= 80
  {
    assert [Player1, Player2][..1] == [Player1];
    assert [Player1, Player2, Player3][..2] == [Player1, Player2];
    assert SeatOrder[..3] == [Player1, Player2, Player3];
    assert SumPointsOf(v, [Player1]) == CardPoints(v.cards[Player1], v.trump);
    assert SumPointsOf(v, [Player1, Player2]) == SumPointsOf(v, [Player1]) + CardPoints(v.cards[Player2], v.trump);
    assert SumPointsOf(v, [Player1, Player2, Player3]) == SumPointsOf(v, [Player1, Player2]) + CardPoints(v.cards[Player3], v.trump);
  }

  // ---- Loops over the held cards ----

  /** hasCardOfSuit (trick.go:144-151). */
  method HasCardOfSuit(held: set<Card>, suit: Suit) returns (b: bool)
    ensures b == HasSuit(held, suit)
  {
    var rest := held;
    while rest != {}
      invariant rest <= held
      invariant forall c :: c in held && c !in rest ==> c.suit != suit
      decreases |rest|
    {
      var c :| c in rest;
      if c.suit == suit {
        return true;
      }
      rest := rest - {c};
    }
    return false;
  }

  /** getPlayersHighestTrump (trick.go:173-187). */
  method PlayersHighestTrump(held: set<Card>, trump: Suit) returns (r: Option<Rank>)
    ensures r == HighestTrumpOf(held, trump)
  {
    r := None;
    var rest := held;
    while rest != {}
      invariant rest <= held
      invariant IsHighestTrump(r, held - rest, trump)
      decreases |rest|
    {
      var c :| c in rest;
      if c.suit == trump && (r.None? || TrumpOrderIndex(c.rank) > TrumpOrderIndex(r.value)) {
        r := Some(c.rank);
      }
      assert held - (rest - {c}) == (held - rest) + {c};
      rest := rest - {c};
    }
    HighestTrumpUnique(r, held, trump);
  }

  /** Trick (trick.go:5-9): the map of played cards is the field PlayCard updates. */
  class Trick {
    const startingPlayer: PlayerId
    const trump: Suit
    var cards: map<PlayerId, Card>

    function View(): TrickView
      reads this
    {
      TrickView(startingPlayer, cards, trump)
    }

    ghost predicate Valid()
      reads this
    {
      WellFormed(View())
    }

    /** NewTrick (trick.go:16-22). */
    constructor NewTrick(startingPlayer: PlayerId, trump: Suit)
      requires startingPlayer in Seats
      ensures Valid()
      ensures this.startingPlayer == startingPlayer && this.trump == trump && cards == map[]
    {
      this.startingPlayer := startingPlayer;
      this.trump := trump;
      cards := map[];
    }

    /**
     * getHighestTrumpInTrick as written (trick.go:157-171): the highest trump
     * is computed, then nil is returned.  The contract is trivial on purpose:
     * it is the as-written half of a finding, and the loop only mirrors the
     * computation whose result the Go code throws away.
     */
    method HighestTrumpInTrickAsWritten() returns (r: Option<Rank>)
      ensures r == None
    {
      var highest: Option<Rank> := None;
      var rest := cards.Keys;
      while rest != {}
        invariant rest <= cards.Keys
        decreases |rest|
      {
        NonEmptyHasMember(rest);
        var p :| p in rest;
        var c := cards[p];
        if c.suit == trump && (highest.None? || TrumpOrderIndex(c.rank) > TrumpOrderIndex(highest.value)) {
          highest := Some(c.rank);
        }
        rest := rest - {p};
      }
      return None;
    }

    /** getHighestTrumpInTrick returning the highest trump it computes. */
    method HighestTrumpInTrick() returns (r: Option<Rank>)
      ensures r == HighestTrumpOf(PlayedCards(View()), trump)
    {
      r := None;
      var rest := cards.Keys;
      ghost var seen: set<Card> := {};
      while rest != {}
        invariant rest <= cards.Keys
        invariant forall p :: p in cards && p !in rest ==> cards[p] in seen
        invariant seen <= PlayedCards(View())
        invariant IsHighestTrump(r, seen, trump)
        decreases |rest|
      {
        NonEmptyHasMember(rest);
        var p :| p in rest;
        var c := cards[p];
        if c.suit == trump && (r.None? || TrumpOrderIndex(c.rank) > TrumpOrderIndex(r.value)) {
          r := Some(c.rank);
        }
        rest := rest - {p};
        seen := seen + {c};
      }
      assert seen == PlayedCards(View());
      HighestTrumpUnique(r, PlayedCards(View()), trump);
    }

    /** validateHigherTrumpRule (trick.go:127-142); Go dereferences the highest trump played, so one must exist. */
    method ValidateHigherTrumpRule(card: Card, held: set<Card>) returns (err: Option<GameError>)
      requires HighestTrumpOf(PlayedCards(View()), trump).Some?
      ensures err == HigherTrumpRule(held, trump, card, HighestTrumpOf(PlayedCards(View()), trump).value)
    {
      var playersHighest := PlayersHighestTrump(held, trump);
      if playersHighest.None? || card.suit != trump {
        return None;
      }
      var highestInTrick := HighestTrumpInTrick();
      if TrumpOrderIndex(playersHighest.value) > TrumpOrderIndex(highestInTrick.value)
         && TrumpOrderIndex(card.rank) < TrumpOrderIndex(highestInTrick.value)
      {
        return Some(MustPlayHigherTrump);
      }
      return None;
    }

    /** validateCard (trick.go:92-125) with both corrections. */
    method Validate(card: Card, held: set<Card>) returns (err: Option<GameError>)
      ensures err == ValidateCard(View(), card, held)
    {
      if card !in held {
        return Some(CardNotOwned);
      }
      if |cards| == 0 {
        return None;
      }
      var lead := LeadSuit(View());
      if lead == Some(card.suit) {
        if card.suit == trump {
          assert cards[startingPlayer] in PlayedCards(View());
          err := ValidateHigherTrumpRule(card, held);
          return;
        }
        return None;
      }
      var holdsLead := false;
      if lead.Some? {
        holdsLead := HasCardOfSuit(held, lead.value);
      }
      if holdsLead {
        return Some(MustFollowLeadSuit);
      }
      var holdsTrump := HasCardOfSuit(held, trump);
      if !holdsTrump {
        return None;
      }
      if card.suit != trump {
        return Some(MustPlayTrump);
      }
      var highest := HighestTrumpInTrick();
      if highest.Some? {
        err := ValidateHigherTrumpRule(card, held);
        return;
      }
      return None;
    }

    /**
     * PlayCard (trick.go:24-41).  The player's card set, which Go shares
     * with the hand and deletes from, is passed in and returned.
     */
    method PlayCard(player: PlayerId, card: Card, held: set<Card>) returns (err: Option<GameError>, heldAfter: set<Card>)
      requires Valid()
      modifies this
      ensures Valid()
      ensures err == PlayCardError(old(View()), player, card, held)
      ensures err.None? ==> player !in old(cards) && cards == old(cards)[player := card] && heldAfter == held - {card}
      ensures err.Some? ==> unchanged(this) && heldAfter == held
    {
      var turn := CurrentTurnOf(View());
      if turn.Err? {
        return Some(turn.error), held;
      }
      if turn.value != player {
        return Some(NotPlayersTurn), held;
      }
      err := Validate(card, held);
      if err.Some? {
        return err, held;
      }
      WellFormedAfterPlay(View(), card);
      cards := cards[player := card];
      heldAfter := held - {card};
    }

    /**
     * GetTrickResult (trick.go:43-69).  Go ranges over the map of cards in
     * an unspecified order; `order` is that order.
     */
    method GetTrickResult(order: seq<PlayerId>) returns (r: Result<TrickResult, GameError>)
      requires Valid() && IsSeatOrder(order)
      ensures !IsFinishedOf(View()) ==> r == Err(TrickNotFinished)
      ensures IsFinishedOf(View()) ==> AllPlayed(View(), order)
      ensures IsFinishedOf(View()) ==>
        r == Ok(TrickResult(ScanWinner(View(), startingPlayer, order), SumPointsOf(View(), order)))
    {
      if !IsFinishedOf(View()) {
        return Err(TrickNotFinished);
      }
      WinnerHasMaxKey(View(), order);
      ghost var v := View();
      var total := 0;
      var best := startingPlayer;
      for i := 0 to |order|
        invariant best in v.cards
        invariant total == SumPointsOf(v, order[..i])
        invariant ScanWinner(v, best, order[i..]) == ScanWinner(v, startingPlayer, order)
      {
        var player := order[i];
        var card := cards[player];
        SumPointsStep(v, order, i);
        ScanWinnerStep(v, best, order, i);
        if card.suit == trump {
          total := total + TrumpPoints(card.rank);
        } else {
          total := total + NonTrumpPoints(card.rank);
        }
        var bestCard := cards[best];
        if bestCard.suit == trump {
          if card.suit == trump && TrumpOrderIndex(card.rank) > TrumpOrderIndex(bestCard.rank) {
            best := player;
          }
        } else if card.suit == trump || (card.suit == bestCard.suit && NonTrumpOrderIndex(card.rank) > NonTrumpOrderIndex(bestCard.rank)) {
          best := player;
        }
      }
      assert order[..|order|] == order;
      return Ok(TrickResult(best, total));
    }
  }

  /**
   * What GetTrickResult returns for a finished trick scanned in `order`:
   * the winner is a seat, and the points are the trick's points whatever
   * the order, between 0 and 80.
   */
  function TrickOutcome(v: TrickView, order: seq<PlayerId>): (r: TrickResult)
    requires WellFormed(v) && IsFinishedOf(v) && IsSeatOrder(order)
    ensures r.winnerPlayer in Seats && r.winnerPlayer in v.cards
    ensures r.points == TrickPoints(v) && 0 <= r.points <= 80
  {
    WinnerHasMaxKey(v, order);
    PointsIndependentOfOrder(v, order);
    TrickPointsBounded(v);
    TrickResult(ScanWinner(v, v.startingPlayer, order), SumPointsOf(v, order))
  }

  /** On a trick without repeated cards, GetTrickResult gives the same result for every scan order. */
  lemma TrickResultIndependentOfOrder(v: TrickView, order: seq<PlayerId>)
    requires WellFormed(v) && IsFinishedOf(v) && DistinctTrickCards(v) && IsSeatOrder(order)
    ensures AllPlayed(v, order)
    ensures TrickResult(ScanWinner(v, v.startingPlayer, order), SumPointsOf(v, order)) == TrickResult(TrickWinner(v), TrickPoints(v))
  {
    assert IsSeatOrder(SeatOrder);
    WinnerIndependentOfOrder(v, order, SeatOrder);
    PointsIndependentOfOrder(v, order);
  }
}
