/**
 * The seat arithmetic of the web client (client/app/client/player-id.ts).
 * The client repeats the server's rule for whose turn follows, in
 * TypeScript; this module models the TypeScript and proves that both sides
 * agree.  JavaScript's `%` truncates toward zero like Go's, so `GoRem` is
 * the right remainder for it too.
 */
module ClientPlayerId {
  import opened Players

  /** The `PlayerId` enum: `NoId` and the four seats. */
  const NoId: int := 0

  predicate InEnum(p: int)
  {
    NoId <= p <= Player4
  }

  /** getNextPlayerId (player-id.ts:9-11). */
  function NextPlayerId(p: int): int
  {
    GoRem(p - 1 + 1, 4) + 1
  }

  /** getPreviousPlayerId (player-id.ts:13-15). */
  function PreviousPlayerId(p: int): int
  {
    GoRem(p - 1 + 3, 4) + 1
  }

  /**
   * For every value of the enum the answer is a seat; `NoId` is followed
   * by Player1 and preceded by Player3.
   */
  lemma EnumGoesToSeats(p: int)
    requires InEnum(p)
    ensures NextPlayerId(p) in Seats && PreviousPlayerId(p) in Seats
    ensures p == NoId ==> NextPlayerId(p) == Player1 && PreviousPlayerId(p) == Player3
  {
  }

  /** On a seat the two functions step one seat up and one seat down, wrapping at the ends. */
  lemma SeatSteps(p: int)
    requires p in Seats
    ensures NextPlayerId(p) == if p == Player4 then Player1 else p + 1
    ensures PreviousPlayerId(p) == if p == Player1 then Player4 else p - 1
  {
  }

  /** On a seat, next and previous undo each other. */
  lemma ClientNextPreviousInverse(p: int)
    requires p in Seats
    ensures PreviousPlayerId(NextPlayerId(p)) == p
    ensures NextPlayerId(PreviousPlayerId(p)) == p
  {
    SeatSteps(p);
    SeatSteps(NextPlayerId(p));
    SeatSteps(PreviousPlayerId(p));
  }

  /** Four steps of the client's rule visit four different seats and come back. */
  lemma ClientFourSteps(p: int)
    requires p in Seats
    ensures var n1 := NextPlayerId(p); var n2 := NextPlayerId(n1); var n3 := NextPlayerId(n2);
      {p, n1, n2, n3} == Seats && NextPlayerId(n3) == p
  {
    if p == Player1 {
      FourStepsFrom(1, 2, 3, 4);
    } else if p == Player2 {
      FourStepsFrom(2, 3, 4, 1);
    } else if p == Player3 {
      FourStepsFrom(3, 4, 1, 2);
    } else {
      FourStepsFrom(4, 1, 2, 3);
    }
  }

  /** Three steps that have visited all four seats lead back to the first with the fourth. */
  lemma FourStepsFrom(p: int, n1: int, n2: int, n3: int)
    requires p in Seats && n1 == NextPlayerId(p) && n2 == NextPlayerId(n1) && n3 == NextPlayerId(n2)
    requires {p, n1, n2, n3} == Seats
    ensures NextPlayerId(n3) == p
  {
    SeatSteps(n3);
  }

  /**
   * The client and the server (game/game.go's getNextPlayerId and
   * getPreviousPlayerId) give the same answer on every integer, seats or not.
   */
  lemma AgreesWithServer(p: int)
    ensures NextPlayerId(p) == GetNextPlayerId(p)
    ensures PreviousPlayerId(p) == GetPreviousPlayerId(p)
  {
  }

  /** Outside the enum the client's answer can leave the seats: at -1 it gives 0. */
  lemma BelowEnumLeavesSeats()
    ensures NextPlayerId(-1) == NoId
    ensures NextPlayerId(-1) !in Seats
  {
  }
}
