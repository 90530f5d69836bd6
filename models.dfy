/** The records of Greyboard/Core/Models that the session engine reads and writes.

    Board and Client are classes: the hub assigns their fields in place. A field
    that nothing in the engine ever assigns after construction is a `const`. */
module Models {
  import opened Wrappers

  /** BoardAccess.AccessType, ordered by declaration: Viewer < Editor < Admin. */
  datatype AccessType = Viewer | Editor | Admin

  function Rank(t: AccessType): nat
  {
    match t
    case Viewer => 0
    case Editor => 1
    case Admin => 2
  }

  /** The C# enum comparison `t >= bound`. */
  predicate AtLeast(t: AccessType, bound: AccessType)
  {
    Rank(t) >= Rank(bound)
  }

  /** The identity part of a user (Greyboard/Core/Models/User.cs is not part of
      this model; these are the fields the hub reads). */
  datatype User = User(id: string, name: string, avatar: string)

  /** A grant record. Its user may be null, and such an entry matches nobody. */
  datatype BoardAccess = BoardAccess(id: string, board: string, user: Option<User>, accessType: AccessType)

  /** A pointer coordinate is a C# `float`; the engine only copies it, so it is
      kept as its 32-bit pattern and never interpreted. */
  type Coordinate = bv32

  /** The PointerType enumeration is not part of this model; its value is an
      opaque code, and Mouse is the default a new Client starts with. */
  datatype PointerType = PointerType(code: int)

  const Mouse: PointerType := PointerType(0)

  /** The serialised action payload; the engine forwards it and never looks inside. */
  type Action = seq<bv8>

  /** One journal entry: who performed the action, and the action itself. */
  datatype BoardEvent = BoardEvent(byUser: string, action: Action)

  /** A board as the durable store serialises it: the body of a successful fetch. */
  datatype BoardRecord = BoardRecord(
    id: string,
    name: string,
    slug: string,
    author: Option<User>,
    accesses: seq<BoardAccess>,
    isPublic: bool,
    host: string,
    age: int,
    events: seq<BoardEvent>)

  /** The store's response envelope ApiResponse<Board>. */
  datatype ApiResponse = ApiResponse(status: int, result: Option<BoardRecord>, error: Option<string>)

  /** The fields of the Client payload that Join copies into the new Client. */
  datatype JoinRequest = JoinRequest(id: string, name: string, avatar: string, pointerX: Coordinate, pointerY: Coordinate)

  /** A live board session. `host` is the connection allowed to persist the
      board; the empty string means that nobody is. */
  class Board {
    const id: string
    const slug: string
    const author: Option<User>
    const isPublic: bool
    var name: string
    var host: string
    var accesses: seq<BoardAccess>
    var events: seq<BoardEvent>
    var age: int

    /** The deserialisation of a fetched board. */
    constructor (r: BoardRecord)
      ensures Snapshot() == r
    {
      id, slug, author, isPublic := r.id, r.slug, r.author, r.isPublic;
      name, host, accesses, events, age := r.name, r.host, r.accesses, r.events, r.age;
    }

    /** The current value of every field. */
    function Snapshot(): BoardRecord
      reads this
    {
      BoardRecord(id, name, slug, author, accesses, isPublic, host, age, events)
    }
  }

  /** A user bound to one connection on one board (`group` is the board's slug). */
  class Client {
    const connectionId: string
    const id: string
    const name: string
    const avatar: string
    const group: string
    var pointerX: Coordinate
    var pointerY: Coordinate
    var pointerType: PointerType
    var afk: bool

    /** The Client that Join builds for the caller: identity and pointer from the
        payload, pointer type and afk left at their defaults. */
    constructor (connectionId: string, user: JoinRequest, group: string)
      ensures this.connectionId == connectionId && this.group == group
      ensures id == user.id && name == user.name && avatar == user.avatar
      ensures pointerX == user.pointerX && pointerY == user.pointerY
      ensures pointerType == Mouse && !afk
    {
      this.connectionId, this.group := connectionId, group;
      id, name, avatar := user.id, user.name, user.avatar;
      pointerX, pointerY := user.pointerX, user.pointerY;
      pointerType, afk := Mouse, false;
    }
  }
}
