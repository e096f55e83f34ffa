/**
 * Seats, teams and the seat arithmetic of game/game.go (lines 16-73), which
 * trick.go, hand.go and game.go all use to go round the table.
 */
module Players {

  /** Go's `type PlayerId int`: any integer, of which 1..4 are seats. */
  type PlayerId = int

  const NoPlayerId: PlayerId := 0
  const Player1: PlayerId := 1
  const Player2: PlayerId := 2
  const Player3: PlayerId := 3
  const Player4: PlayerId := 4

  /** Go's `type TeamId int`. */
  type TeamId = int

  const NoTeamId: TeamId := 0
  const Team1: TeamId := 1
  const Team2: TeamId := 2

  const NUM_PLAYERS: nat := 4
  const NUM_CARDS_PER_PLAYER: nat := 8
  const NUM_CARDS_BEFORE_TRUMP: nat := 5
  const TARGET_SCORE: int := 1000

  const Seats: set<PlayerId> := {Player1, Player2, Player3, Player4}

  /** The seats in numeric order, the order of the source's `for player := Player1; player <= Player4` loops. */
  const SeatOrder: seq<PlayerId> := [Player1, Player2, Player3, Player4]

  /** Go's `%` on integers: truncated division, so the remainder has the sign of `a`. */
  function GoRem(a: int, n: int): (r: int)
    requires n > 0
    ensures a >= 0 ==> 0 <= r < n && r == a % n
    ensures a < 0 ==> -n < r <= 0
  {
    if a >= 0 then a % n else -((-a) % n)
  }

  /** Go's `%` is odd in its first operand, unlike Dafny's Euclidean `%`. */
  lemma GoRemIsOdd(a: int, n: int)
    requires n > 0
    ensures GoRem(-a, n) == -GoRem(a, n)
    ensures a < 0 && a % n != 0 ==> GoRem(a, n) != a % n
  {
  }

  function GetTeam(p: PlayerId): (t: TeamId)
    ensures t == Team1 || t == Team2
    ensures t == Team1 <==> p == Player1 || p == Player3
  {
    if p == Player1 || p == Player3 then Team1 else Team2
  }

  function GetTeammateId(p: PlayerId): PlayerId
  {
    if p == Player1 then Player3
    else if p == Player3 then Player1
    else if p == Player2 then Player4
    else Player2
  }

  function GetNextPlayerId(p: PlayerId): PlayerId
  {
    GoRem(p - 1 + 1, 4) + 1
  }

  function GetPreviousPlayerId(p: PlayerId): PlayerId
  {
    GoRem(p - 1 + 3, 4) + 1
  }

  /**
   * The seat reached after `i` steps round the table from `start`:
   * `Player1 + (start - Player1 + i) % NUM_PLAYERS`, the expression of
   * trick.go:85, hand.go:212, hand.go:265 and game.go:148.
   */
  function TurnSeat(start: PlayerId, i: int): PlayerId
  {
    GoRem(start - Player1 + i, NUM_PLAYERS) + Player1
  }

  /** How many steps round the table from `start` seat `p` lies. */
  function TurnIndex(start: PlayerId, p: PlayerId): (i: nat)
    requires start in Seats && p in Seats
    ensures i < 4 && TurnSeat(start, i) == p
  {
    (p - start + 4) % 4
  }

  /**
   * The seats in `played` are the first |played| seats going round the
   * table from `start`: the order of play in a trick and of the votes in a
   * trump ballot.
   */
  predicate InTurn(start: PlayerId, played: set<PlayerId>)
  {
    played <= Seats
    && |played| <= NUM_PLAYERS
    && forall i :: 0 <= i < NUM_PLAYERS ==> (TurnSeat(start, i) in played <==> i < |played|)
  }

  /** Seats taken in turn cover the table exactly when there are four of them. */
  lemma InTurnFull(start: PlayerId, played: set<PlayerId>)
    requires start in Seats && InTurn(start, played)
    ensures Seats <= played <==> |played| == NUM_PLAYERS
    ensures |played| < NUM_PLAYERS ==> TurnSeat(start, |played|) !in played
  {
    TurnSeatsDistinct(start);
    if |played| == NUM_PLAYERS {
      forall p | p in Seats
        ensures p in played
      {
        assert TurnSeat(start, TurnIndex(start, p)) == p;
      }
    }
    if Seats <= played {
      assert played == Seats;
    }
  }

  /** The seat whose turn it is joins a set of seats taken in turn. */
  lemma InTurnAdd(start: PlayerId, played: set<PlayerId>)
    requires start in Seats && InTurn(start, played) && |played| < NUM_PLAYERS
    ensures TurnSeat(start, |played|) in Seats && TurnSeat(start, |played|) !in played
    ensures |played + {TurnSeat(start, |played|)}| == |played| + 1
    ensures InTurn(start, played + {TurnSeat(start, |played|)})
  {
    InTurnFull(start, played);
    TurnSeatsDistinct(start);
    var p := TurnSeat(start, |played|);
    var after := played + {p};
    forall i | 0 <= i < NUM_PLAYERS
      ensures TurnSeat(start, i) in after <==> i < |after|
    {
      if i != |played| {
        assert TurnSeat(start, i) != p;
      }
    }
  }

  /** A non-empty set of ids has a member, one for a loop over a map's keys to take next. */
  lemma NonEmptyHasMember(s: set<PlayerId>)
    requires s != {}
    ensures exists p :: p in s
  {
    if forall p: PlayerId :: p !in s {
      assert false;
    }
  }

  /** Teams: seats 1 and 3 play for Team1, every other id for Team2. */
  lemma TeamOfSeats()
    ensures GetTeam(Player1) == Team1 && GetTeam(Player3) == Team1
    ensures GetTeam(Player2) == Team2 && GetTeam(Player4) == Team2
    ensures forall p :: p !in Seats ==> GetTeam(p) == Team2
  {
  }

  /** On seats the teammate relation is an involution without fixed points that keeps the team. */
  lemma TeammateInvolution(p: PlayerId)
    requires p in Seats
    ensures GetTeammateId(p) in Seats && GetTeammateId(p) != p
    ensures GetTeammateId(GetTeammateId(p)) == p
    ensures GetTeam(GetTeammateId(p)) == GetTeam(p)
  {
  }

  /** The next seat: one up, with Player4 followed by Player1. */
  lemma NextSeat(p: PlayerId)
    requires p in Seats
    ensures GetNextPlayerId(p) == if p == Player4 then Player1 else p + 1
  {
  }

  /** The previous seat: one down, with Player1 preceded by Player4. */
  lemma PreviousSeat(p: PlayerId)
    requires p in Seats
    ensures GetPreviousPlayerId(p) == if p == Player1 then Player4 else p - 1
  {
  }

  /** Next and previous seat are inverse to each other. */
  lemma NextPreviousInverse(p: PlayerId)
    requires p in Seats
    ensures GetNextPlayerId(p) in Seats && GetPreviousPlayerId(p) in Seats
    ensures GetPreviousPlayerId(GetNextPlayerId(p)) == p
    ensures GetNextPlayerId(GetPreviousPlayerId(p)) == p
  {
    NextSeat(p);
    PreviousSeat(p);
    PreviousSeat(GetNextPlayerId(p));
    NextSeat(GetPreviousPlayerId(p));
  }

  /** Four steps round the table come back to the same seat. */
  lemma FourStepsComeBack(p: PlayerId)
    requires p in Seats
    ensures GetNextPlayerId(GetNextPlayerId(GetNextPlayerId(GetNextPlayerId(p)))) == p
  {
    var n1 := GetNextPlayerId(p);
    NextSeat(p);
    var n2 := GetNextPlayerId(n1);
    NextSeat(n1);
    var n3 := GetNextPlayerId(n2);
    NextSeat(n2);
    NextSeat(n3);
  }

  /** The next seat belongs to the other team. */
  lemma NextIsOpponent(p: PlayerId)
    requires p in Seats
    ensures GetNextPlayerId(p) != p && GetTeam(GetNextPlayerId(p)) != GetTeam(p)
  {
    NextSeat(p);
  }

  /** Walking round the table from a seat stays on seats, starts at that seat and is periodic. */
  lemma TurnSeatFacts(start: PlayerId, i: nat)
    requires start in Seats
    ensures TurnSeat(start, i) in Seats
    ensures TurnSeat(start, 0) == start
    ensures TurnSeat(start, i + 1) == GetNextPlayerId(TurnSeat(start, i))
    ensures TurnSeat(start, i + NUM_PLAYERS) == TurnSeat(start, i)
    ensures TurnSeat(start, i) == TurnSeat(start, i % NUM_PLAYERS)
  {
  }

  /** Four consecutive steps visit four different seats. */
  lemma TurnSeatsDistinct(start: PlayerId)
    requires start in Seats
    ensures forall i, j :: 0 <= i < j < 4 ==> TurnSeat(start, i) != TurnSeat(start, j)
    ensures forall i :: 0 <= i < 4 ==> TurnSeat(start, i) in Seats
  {
  }
}
