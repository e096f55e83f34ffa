/**
 * The room of the WebSocket server (server/internal/room/room.go): the same
 * rules as the single-process room, with each user's connection and name
 * kept beside their seat and team, and connections replaceable.
 *
 * The room's mutex is left out: every method runs as one sequential step.
 * A connection is the `messageSender` the server registered; here it is an
 * opaque handle.  The game's shuffle is StartGame's `perm` parameter, and
 * PlayTurn's game command is not part of this model (see ServerRoom).
 */
module Room {
  import opened Wrappers
  import opened Players
  import opened Seating
  import opened Game

  /** A handle standing for a user's connection. */
  type Conn = nat

  /** What the room knows of a user: seat, team, connection and display name. */
  datatype UserData = UserData(playerId: PlayerId, team: TeamId, conn: Conn, userName: string)

  /** The team of each user. */
  function TeamsOf(users: map<string, UserData>): (teams: map<string, TeamId>)
    ensures teams.Keys == users.Keys
  {
    map u | u in users :: users[u].team
  }

  /** The seat of each user. */
  function SeatsOf(users: map<string, UserData>): (seats: map<string, PlayerId>)
    ensures seats.Keys == users.Keys
  {
    map u | u in users :: users[u].playerId
  }

  /** Every user keeps their record, with the seat `seats` gives them. */
  function WithSeats(users: map<string, UserData>, seats: map<string, PlayerId>): (r: map<string, UserData>)
    requires seats.Keys == users.Keys
    ensures r.Keys == users.Keys
    ensures forall u :: u in r ==> r[u] == users[u].(playerId := seats[u])
  {
    map u | u in users :: users[u].(playerId := seats[u])
  }

  /** Drawing seats leaves every user's team as it was. */
  lemma WithSeatsKeepsTeams(users: map<string, UserData>, seats: map<string, PlayerId>)
    requires seats.Keys == users.Keys
    ensures TeamsOf(WithSeats(users, seats)) == TeamsOf(users)
    ensures SeatsOf(WithSeats(users, seats)) == seats
  {
  }

  class Room {
    const id: string
    const game: BeloteGame
    var users: map<string, UserData>
    var started: bool

    /** The game is consistent, apart from the room, and the room holds at most four users. */
    ghost predicate Valid()
      reads this`users, game, game.currentHand, game.HandRepr()
    {
      game.Valid() && this !in game.HandRepr() && |users| <= NUM_PLAYERS
    }

    /** NewRoom (room.go:42-50). */
    constructor NewRoom(id: string)
      ensures Valid() && this.id == id && users == map[] && !started
      ensures fresh(game) && game.state == GameReady && game.currentHand == null
    {
      this.id := id;
      game := new BeloteGame.NewBeloteGame();
      users := map[];
      started := false;
    }

    /** Join (room.go:52-76): a new user enters Team1 without a seat, with their connection and name, while there is room. */
    method Join(token: string, conn: Conn, userName: string) returns (err: Option<RoomError>)
      requires Valid()
      modifies this`users
      ensures Valid()
      ensures token in old(users) ==> err.None? && users == old(users)
      ensures token !in old(users) && started ==> err == Some(GameAlreadyStarted) && users == old(users)
      ensures token !in old(users) && !started && |old(users)| >= NUM_PLAYERS ==>
        err == Some(RoomFull) && users == old(users)
      ensures token !in old(users) && !started && |old(users)| < NUM_PLAYERS ==>
        err.None? && users == old(users)[token := UserData(NoPlayerId, Team1, conn, userName)]
    {
      if token in users {
        return None;
      }
      if started {
        return Some(GameAlreadyStarted);
      }
      if |users| >= NUM_PLAYERS {
        return Some(RoomFull);
      }
      users := users[token := UserData(NoPlayerId, Team1, conn, userName)];
      return None;
    }

    /** ChooseTeam (room.go:78-99): only the team changes; seat, connection and name stay. */
    method ChooseTeam(token: string, team: TeamId) returns (err: Option<RoomError>)
      requires Valid()
      modifies this`users
      ensures Valid()
      ensures token !in old(users) ==> err == Some(PlayerNotFound) && users == old(users)
      ensures token in old(users) && started ==> err == Some(GameAlreadyStarted) && users == old(users)
      ensures token in old(users) && !started ==>
        err.None? && users == old(users)[token := old(users)[token].(team := team)]
    {
      if token !in users {
        return Some(PlayerNotFound);
      }
      if started {
        return Some(GameAlreadyStarted);
      }
      var userData := users[token];
      users := users[token := UserData(userData.playerId, team, userData.conn, userData.userName)];
      return None;
    }

    /**
     * UpdateUserConnection (room.go:125-142): a known user's connection is
     * replaced and nothing else changes, whether or not the game has started.
     */
    method UpdateUserConnection(token: string, conn: Conn) returns (err: Option<RoomError>)
      requires Valid()
      modifies this`users
      ensures Valid()
      ensures token !in old(users) ==> err == Some(PlayerNotFound) && users == old(users)
      ensures token in old(users) ==>
        err.None? && users == old(users)[token := old(users)[token].(conn := conn)]
    {
      if token !in users {
        return Some(PlayerNotFound);
      }
      var userData := users[token];
      users := users[token := UserData(userData.playerId, userData.team, conn, userData.userName)];
      return None;
    }

    /**
     * The seat PlayTurn (room.go:101-106) plays as: the user's seat, or, for
     * a token that is not in the room, the zero PlayerId of Go's map lookup.
     */
    function TurnPlayer(token: string): (p: PlayerId)
      reads this
      ensures token !in users ==> p == NoPlayerId
      ensures token in users ==> p == users[token].playerId
    {
      if token in users then users[token].playerId else NoPlayerId
    }

    /**
     * assignPlayerIds (room.go:166-195): unless the teams are unbalanced,
     * every user is given a seat of their team, different from everyone else's.
     */
    method AssignPlayerIds() returns (err: Option<RoomError>)
      modifies this`users
      ensures err.None? <==> Balanced(TeamsOf(old(users)))
      ensures err.Some? ==> err == Some(TeamsNotBalanced) && users == old(users)
      ensures err.None? ==> users.Keys == old(users).Keys && users == WithSeats(old(users), SeatsOf(users))
      ensures err.None? ==> ProperSeating(TeamsOf(users), SeatsOf(users))
    {
      err := CheckBalance(TeamsOf(users));
      if err.Some? {
        return;
      }
      var seats := AssignSeats(TeamsOf(users));
      ghost var before := users;
      users := WithSeats(users, seats);
      assert TeamsOf(users) == TeamsOf(before);
      assert SeatsOf(users) == seats;
    }

    /**
     * StartGame (room.go:108-123): with balanced teams, seat the users and
     * start the game; `started` is left as it is.
     */
    method StartGame(perm: seq<int>) returns (err: Option<RoomError>)
      requires Valid() && Deals(perm)
      modifies this`users, game`state, game`currentHand
      ensures Valid()
      ensures err.None? <==> !old(started) && Balanced(TeamsOf(old(users)))
      ensures err.Some? ==> err == if old(started) then Some(GameAlreadyStarted) else Some(TeamsNotBalanced)
      ensures err.Some? ==>
        users == old(users) && game.state == old(game.state) && game.currentHand == old(game.currentHand)
      ensures err.None? ==>
        users.Keys == old(users).Keys && users == WithSeats(old(users), SeatsOf(users))
        && ProperSeating(TeamsOf(users), SeatsOf(users))
      ensures err.None? ==>
        game.state == GameInProgress && fresh(game.currentHand)
        && NewHandFrom(game.currentHand, CalculateHandStartingPlayer(game.startingPlayer, game.handNumber), perm)
    {
      if started {
        return Some(GameAlreadyStarted);
      }
      err := AssignPlayerIds();
      if err.Some? {
        return;
      }
      game.Start(perm);
    }

    /** The step the source leaves out: remember that the game has started. */
    method MarkStarted()
      requires Valid()
      modifies this`started
      ensures Valid() && started
    {
      started := true;
    }

    /**
     * StartGame as evidently intended: the same steps, and a successful
     * start marks the room as started, so that the checks of Join,
     * ChooseTeam and StartGame refuse from then on.
     */
    method StartGameOnce(perm: seq<int>) returns (err: Option<RoomError>)
      requires Valid() && Deals(perm)
      modifies this`users, this`started, game`state, game`currentHand
      ensures Valid()
      ensures err.None? <==> !old(started) && Balanced(TeamsOf(old(users)))
      ensures err.Some? ==> err == if old(started) then Some(GameAlreadyStarted) else Some(TeamsNotBalanced)
      ensures err.Some? ==>
        users == old(users) && game.state == old(game.state) && game.currentHand == old(game.currentHand)
      ensures started == (old(started) || err.None?)
      ensures err.None? ==>
        users.Keys == old(users).Keys && users == WithSeats(old(users), SeatsOf(users))
        && ProperSeating(TeamsOf(users), SeatsOf(users))
      ensures err.None? ==>
        game.state == GameInProgress && fresh(game.currentHand)
        && NewHandFrom(game.currentHand, CalculateHandStartingPlayer(game.startingPlayer, game.handNumber), perm)
    {
      if started {
        return Some(GameAlreadyStarted);
      }
      err := AssignPlayerIds();
      if err.Some? {
        return;
      }
      MarkStarted();
      game.Start(perm);
    }
  }

  /**
   * As written, a room whose game is under way accepts StartGame again: the
   * call succeeds and replaces the hand in play with a new one.
   */
  method RestartAsWritten(r: Room, perm: seq<int>) returns (err: Option<RoomError>)
    requires r.Valid() && !r.started && Balanced(TeamsOf(r.users)) && Deals(perm)
    requires r.game.state == GameInProgress
    modifies r`users, r.game`state, r.game`currentHand
    ensures err.None? && !r.started
    ensures r.game.state == GameInProgress && fresh(r.game.currentHand)
    ensures NewHandFrom(r.game.currentHand, CalculateHandStartingPlayer(r.game.startingPlayer, r.game.handNumber), perm)
  {
    err := r.StartGame(perm);
  }

  /**
   * With StartGameOnce, a room that has started refuses a second start, a
   * new user and a change of team alike.
   */
  method RestartRefused(r: Room, perm: seq<int>, newcomer: string, conn: Conn, userName: string, member: string, team: TeamId)
      returns (again: Option<RoomError>, join: Option<RoomError>, choose: Option<RoomError>)
    requires r.Valid() && r.started && Deals(perm)
    requires newcomer !in r.users && member in r.users
    modifies r`users, r`started, r.game`state, r.game`currentHand
    ensures again == Some(GameAlreadyStarted)
    ensures join == Some(GameAlreadyStarted) && choose == Some(GameAlreadyStarted)
  {
    again := r.StartGameOnce(perm);
    join := r.Join(newcomer, conn, userName);
    choose := r.ChooseTeam(member, team);
  }
}
