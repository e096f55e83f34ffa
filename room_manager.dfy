/**
 * The registry of live rooms (server/internal/room/manager.go): rooms are
 * created under ids drawn from a counter, looked up and deleted by id.
 *
 * The manager's mutex is left out: each method runs as one sequential step.
 * Go's `int` counter is taken as unbounded.
 */
module RoomManager {
  import opened Wrappers
  import Room

  /** The character of a decimal digit. */
  function Digit(d: nat): char
    requires d < 10
  {
    ('0' as int + d) as char
  }

  /** The digits of `n` in base 10, most significant first, without leading zeros. */
  function DecimalDigits(n: nat): (s: string)
    ensures |s| >= 1 && forall i :: 0 <= i < |s| ==> '0' <= s[i] <= '9'
  {
    if n < 10 then [Digit(n)] else DecimalDigits(n / 10) + [Digit(n % 10)]
  }

  /** strconv.Itoa: the decimal text of `n`, with a minus sign when it is negative. */
  function Itoa(n: int): string
  {
    if n < 0 then "-" + DecimalDigits(-n) else DecimalDigits(n)
  }

  /** The number a string of decimal digits stands for. */
  function DecimalValue(s: string): int
  {
    if s == [] then 0 else 10 * DecimalValue(s[..|s| - 1]) + (s[|s| - 1] as int - '0' as int)
  }

  /** strconv.Atoi on the texts Itoa writes: an optional minus sign, then decimal digits. */
  function Atoi(s: string): int
  {
    if |s| >= 1 && s[0] == '-' then -DecimalValue(s[1..]) else DecimalValue(s)
  }

  /** Reading the digits of `n` gives back `n`. */
  lemma {:induction false} DecimalRoundTrip(n: nat)
    ensures DecimalValue(DecimalDigits(n)) == n
  {
    var s := DecimalDigits(n);
    if n >= 10 {
      DecimalRoundTrip(n / 10);
      assert s[..|s| - 1] == DecimalDigits(n / 10);
    }
  }

  /** Reading back the text of any integer gives that integer. */
  lemma ItoaRoundTrip(n: int)
    ensures Atoi(Itoa(n)) == n
  {
    if n < 0 {
      var s := Itoa(n);
      assert s[1..] == DecimalDigits(-n);
      DecimalRoundTrip(-n);
    } else {
      DecimalRoundTrip(n);
    }
  }

  /** Different numbers have different decimal texts, so room ids never collide. */
  lemma ItoaInjective(a: int, b: int)
    ensures Itoa(a) == Itoa(b) <==> a == b
  {
    ItoaRoundTrip(a);
    ItoaRoundTrip(b);
  }

  /** The first id the manager hands out reads "1". */
  lemma FirstIdText()
    ensures Itoa(1) == "1"
    ensures forall n :: n > 1 ==> Itoa(n) != "1"
  {
    forall n | n > 1
      ensures Itoa(n) != "1"
    {
      ItoaInjective(n, 1);
    }
  }

  /** RoomIdGenerator (manager.go:44-58): a counter that hands out each value once. */
  class RoomIdGenerator {
    var roomIdCounter: int

    /** NewRoomIdGenerator (manager.go:48-52). */
    constructor NewRoomIdGenerator(startingId: int)
      ensures roomIdCounter == startingId
    {
      roomIdCounter := startingId;
    }

    /** getNextRoomId (manager.go:54-58): the current value, and the counter moves past it. */
    method GetNextRoomId() returns (id: int)
      modifies this
      ensures id == old(roomIdCounter) && roomIdCounter == id + 1
    {
      id := roomIdCounter;
      roomIdCounter := roomIdCounter + 1;
    }
  }

  /** `k` is the text of an id issued before the counter reached `counter`. */
  ghost predicate Issued(k: string, counter: int)
  {
    exists i :: 1 <= i < counter && k == Itoa(i)
  }

  class RoomManager {
    var rooms: map<string, Room.Room>
    const idGen: RoomIdGenerator

    /**
     * The counter started at 1, every room is filed under its own id, and
     * every id in use was issued earlier by the counter.
     */
    ghost predicate Valid()
      reads this, idGen
    {
      idGen.roomIdCounter >= 1
      && (forall k :: k in rooms ==> rooms[k].id == k)
      && (forall k :: k in rooms ==> Issued(k, idGen.roomIdCounter))
    }

    /** NewRoomManager (manager.go:15-20). */
    constructor NewRoomManager()
      ensures Valid() && rooms == map[] && fresh(idGen) && idGen.roomIdCounter == 1
    {
      rooms := map[];
      idGen := new RoomIdGenerator.NewRoomIdGenerator(1);
    }

    /**
     * CreateRoom (manager.go:22-29): a new room under the next id, which no
     * earlier room ever had, even one since deleted; the other rooms stay.
     */
    method CreateRoom() returns (room: Room.Room)
      requires Valid()
      modifies this`rooms, idGen
      ensures Valid() && fresh(room) && room.Valid() && room.users == map[]
      ensures room.id == Itoa(old(idGen.roomIdCounter)) && idGen.roomIdCounter == old(idGen.roomIdCounter) + 1
      ensures !Issued(room.id, old(idGen.roomIdCounter)) && room.id !in old(rooms)
      ensures rooms == old(rooms)[room.id := room]
    {
      var roomId := idGen.GetNextRoomId();
      room := new Room.Room.NewRoom(Itoa(roomId));
      if Issued(room.id, roomId) {
        var i :| 1 <= i < roomId && room.id == Itoa(i);
        ItoaInjective(i, roomId);
      }
      rooms := rooms[room.id := room];
      forall k | k in rooms
        ensures Issued(k, idGen.roomIdCounter)
      {
        if k == room.id {
          assert 1 <= roomId < idGen.roomIdCounter && k == Itoa(roomId);
        } else {
          var i :| 1 <= i < roomId && k == Itoa(i);
          assert 1 <= i < idGen.roomIdCounter;
        }
      }
    }

    /** GetRoom (manager.go:31-36): the room filed under `roomId`, if there is one. */
    function GetRoom(roomId: string): (r: Option<Room.Room>)
      reads this, idGen
      requires Valid()
      ensures r.Some? <==> roomId in rooms
      ensures r.Some? ==> r.value == rooms[roomId] && r.value.id == roomId
    {
      if roomId in rooms then Some(rooms[roomId]) else None
    }

    /** DeleteRoom (manager.go:38-42): only that id goes; an unknown id changes nothing. */
    method DeleteRoom(roomId: string)
      requires Valid()
      modifies this`rooms
      ensures Valid() && rooms == old(rooms) - {roomId}
      ensures roomId !in old(rooms) ==> rooms == old(rooms)
    {
      rooms := rooms - {roomId};
    }
  }

  /**
   * A fresh manager names its first room "1"; after that room is deleted the
   * next room is "2", so a deleted id is not handed out again.
   */
  method CreateDeleteCreate() returns (first: Room.Room, second: Room.Room, m: RoomManager)
    ensures m.Valid() && first.id == "1" && second.id == "2" && first != second
    ensures m.rooms == map["2" := second] && m.idGen.roomIdCounter == 3
  {
    m := new RoomManager.NewRoomManager();
    first := m.CreateRoom();
    m.DeleteRoom(first.id);
    second := m.CreateRoom();
  }
}
