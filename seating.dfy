/**
 * The team check and the seat draw that both room packages run before a game
 * starts: checkBalance and assignPlayerIds, written identically in
 * server/internal/serverroom/room.go:95-140 and
 * server/internal/room/room.go:166-212.  A room is seen here through the
 * team each user chose, keyed by user id.
 *
 * Go ranges over a map in an unspecified order and draws `rand.IntN(2)`;
 * both are picked with `:|`, so what the methods promise holds for every
 * order and every draw.
 */
module Seating {
  import opened Wrappers
  import opened Players

  /** The four errors of a room. */
  datatype RoomError = RoomFull | PlayerNotFound | TeamsNotBalanced | GameAlreadyStarted

  /** The users in Team1 (`inTeam1`) or in any other team (`!inTeam1`). */
  function Members(teams: map<string, TeamId>, inTeam1: bool): set<string>
  {
    set u | u in teams && (teams[u] == Team1) == inTeam1
  }

  /** What checkBalance accepts: two users in Team1 and two in any other team. */
  predicate Balanced(teams: map<string, TeamId>)
  {
    |Members(teams, true)| == 2 && |Members(teams, false)| == 2
  }

  /** The seats of a team: 1 and 3 for Team1, 2 and 4 for every other team value. */
  predicate SeatOfTeam(team: TeamId, seat: PlayerId)
  {
    if team == Team1 then seat == Player1 || seat == Player3
    else seat == Player2 || seat == Player4
  }

  /** Every user has a seat of their team, and no two users share a seat. */
  predicate ProperSeating(teams: map<string, TeamId>, seats: map<string, PlayerId>)
  {
    seats.Keys == teams.Keys
    && (forall u :: u in seats ==> SeatOfTeam(teams[u], seats[u]))
    && (forall u, v :: u in seats && v in seats && u != v ==> seats[u] != seats[v])
  }

  /** checkBalance: count the users of Team1 and of the other teams. */
  method CheckBalance(teams: map<string, TeamId>) returns (err: Option<RoomError>)
    ensures err.None? <==> Balanced(teams)
    ensures err.Some? ==> err == Some(TeamsNotBalanced)
  {
    ghost var t1, t2 := Members(teams, true), Members(teams, false);
    var team1Count, team2Count := 0, 0;
    var todo := teams.Keys;
    while todo != {}
      invariant todo <= teams.Keys
      invariant team1Count == |t1 - todo| && team2Count == |t2 - todo|
      decreases |todo|
    {
      var u :| u in todo;
      SeenOneMore(t1, todo, u);
      SeenOneMore(t2, todo, u);
      if teams[u] == Team1 {
        team1Count := team1Count + 1;
      } else {
        team2Count := team2Count + 1;
      }
      todo := todo - {u};
    }
    if team1Count != 2 || team2Count != 2 {
      return Some(TeamsNotBalanced);
    }
    return None;
  }

  /** Taking `u` out of the unseen users adds it to the seen part of `t` if it belongs to `t`. */
  lemma SeenOneMore(t: set<string>, todo: set<string>, u: string)
    requires u in todo
    ensures |t - (todo - {u})| == |t - todo| + (if u in t then 1 else 0)
  {
    if u in t {
      assert t - (todo - {u}) == (t - todo) + {u};
    } else {
      assert t - (todo - {u}) == t - todo;
    }
  }

  /** A set with three different elements has at least three. */
  lemma ThreeElements(s: set<string>, a: string, b: string, c: string)
    requires a in s && b in s && c in s && a != b && a != c && b != c
    ensures |s| >= 3
  {
    var r := s - {a, b, c};
    assert s == r + {a, b, c};
    assert r !! {a, b, c};
  }

  /**
   * What the seat draw keeps while it runs: the users seen so far (all but
   * `todo`) sit properly, `used` holds exactly their seats, and `owner`
   * tells who sits on each.
   */
  ghost predicate SeatedSoFar(teams: map<string, TeamId>, todo: set<string>, seats: map<string, PlayerId>,
                              used: set<PlayerId>, owner: map<PlayerId, string>)
  {
    todo <= teams.Keys
    && seats.Keys == teams.Keys - todo
    && (forall u :: u in seats ==> SeatOfTeam(teams[u], seats[u]))
    && (forall u, v :: u in seats && v in seats && u != v ==> seats[u] != seats[v])
    && owner.Keys == used
    && (forall s :: s in owner ==> owner[s] in seats && seats[owner[s]] == s)
    && (forall u :: u in seats ==> seats[u] in used)
  }

  /** Seating one more user on a free seat of their team keeps the seating proper. */
  lemma SeatOneMore(teams: map<string, TeamId>, todo: set<string>, seats: map<string, PlayerId>,
                    used: set<PlayerId>, owner: map<PlayerId, string>, u: string, seat: PlayerId)
    requires SeatedSoFar(teams, todo, seats, used, owner)
    requires u in todo && seat !in used && SeatOfTeam(teams[u], seat)
    ensures SeatedSoFar(teams, todo - {u}, seats[u := seat], used + {seat}, owner[seat := u])
  {
  }

  /**
   * While the draw runs, a user not yet seated still finds a seat of their
   * team free: with only two users per team, the seats taken by others
   * cannot be both seats of that team.
   */
  lemma TeamSeatFree(teams: map<string, TeamId>, todo: set<string>, seats: map<string, PlayerId>,
                     used: set<PlayerId>, owner: map<PlayerId, string>, u: string)
    requires Balanced(teams) && SeatedSoFar(teams, todo, seats, used, owner) && u in todo
    ensures teams[u] == Team1 ==> !(Player1 in used && Player3 in used)
    ensures teams[u] != Team1 ==> !(Player2 in used && Player4 in used)
  {
    if teams[u] == Team1 && Player1 in used && Player3 in used {
      ThreeElements(Members(teams, true), owner[Player1], owner[Player3], u);
    }
    if teams[u] != Team1 && Player2 in used && Player4 in used {
      ThreeElements(Members(teams, false), owner[Player2], owner[Player4], u);
    }
  }

  /**
   * One user's draw in assignPlayerIds: if the partner seat is taken, or the
   * own first seat is free and the coin says so, the first seat of the team
   * (1 or 2), else the second (3 or 4).  Both seats of the team must not be
   * taken already.
   */
  method DrawSeat(team: TeamId, used: set<PlayerId>) returns (seat: PlayerId)
    requires team == Team1 ==> !(Player1 in used && Player3 in used)
    requires team != Team1 ==> !(Player2 in used && Player4 in used)
    ensures seat !in used && SeatOfTeam(team, seat)
  {
    var draw: bool :| true;
    if team == Team1 {
      if Player3 in used || (Player1 !in used && draw) {
        seat := Player1;
      } else {
        seat := Player3;
      }
    } else {
      if Player4 in used || (Player2 !in used && draw) {
        seat := Player2;
      } else {
        seat := Player4;
      }
    }
  }

  /**
   * The seat draw of assignPlayerIds, for balanced teams: each Team1 user
   * takes seat 1 or 3, each other user seat 2 or 4, as the draw decides,
   * except that a seat already taken forces its partner.
   */
  method AssignSeats(teams: map<string, TeamId>) returns (seats: map<string, PlayerId>)
    requires Balanced(teams)
    ensures ProperSeating(teams, seats)
  {
    seats := map[];
    var used: set<PlayerId> := {};
    ghost var owner: map<PlayerId, string> := map[];
    var todo := teams.Keys;
    while todo != {}
      invariant SeatedSoFar(teams, todo, seats, used, owner)
      decreases |todo|
    {
      var u :| u in todo;
      TeamSeatFree(teams, todo, seats, used, owner, u);
      var seat := DrawSeat(teams[u], used);
      SeatOneMore(teams, todo, seats, used, owner, u, seat);
      seats := seats[u := seat];
      used := used + {seat};
      owner := owner[seat := u];
      todo := todo - {u};
    }
  }

  /** A set of two elements is a pair. */
  lemma TwoElements(s: set<string>) returns (a: string, b: string)
    requires |s| == 2
    ensures a != b && s == {a, b}
  {
    a :| a in s;
    var r := s - {a};
    assert |r| == 1;
    b :| b in r;
    assert r == {b} by {
      if r != {b} {
        var c :| c in r && c != b;
        ThreeElements(s, a, b, c);
      }
    }
    assert s == r + {a};
  }

  /** With balanced teams a proper seating fills all four seats. */
  lemma ProperSeatingFillsTable(teams: map<string, TeamId>, seats: map<string, PlayerId>)
    requires Balanced(teams) && ProperSeating(teams, seats)
    ensures forall s :: s in Seats ==> exists u :: u in seats && seats[u] == s
  {
    var a, b := TwoElements(Members(teams, true));
    var c, d := TwoElements(Members(teams, false));
    assert {seats[a], seats[b]} == {Player1, Player3};
    assert {seats[c], seats[d]} == {Player2, Player4};
  }
}
