/** BoardHub: the session protocol. Each RPC is one atomic step over the
    board registry, the presence directory and the fields of the boards and
    clients they hold. What the hub sends through the transport is recorded,
    in call order, in a ghost outbox. */
module Hubs {
  import opened Wrappers
  import opened Models
  import opened AccessRules
  import opened BoardRegistry
  import opened PresenceDirectory
  import opened SeqFacts

  /** Who a message goes to: one connection, a board's group, or a board's
      group except one connection. */
  datatype Target =
    | ToConnection(connection: string)
    | ToGroup(slug: string)
    | ToGroupExcept(slug: string, excluded: string)

  /** The IBoardClient calls, with the payload identified by connection id
      where the source sends a Client. */
  datatype Message =
    | ConnectionReady(members: seq<string>, events: seq<BoardEvent>, age: int)
    | ClientConnected(connection: string)
    | ClientDisconnected(connection: string)
    | ClientAfkUpdated(connection: string, afk: bool)
    | ReassignUserToClient
    | UserAllowedToSave(allowed: bool)
    | PerformBoardAction(event: BoardEvent)
    | BoardAccessesModified(accesses: seq<BoardAccess>)
    | BoardNameChanged(name: string)
    | BoardAged(age: int)
    | BoardClosed

  datatype Send = Send(target: Target, message: Message)

  function Grant(connection: string): Send
  {
    Send(ToConnection(connection), UserAllowedToSave(true))
  }

  function Revoke(connection: string): Send
  {
    Send(ToConnection(connection), UserAllowedToSave(false))
  }

  /** The host hand-over on joining a live board: the previous host, if any,
      loses the right to save before the new host is given it. */
  function HandoverOnJoin(previous: string, next: string): seq<Send>
  {
    (if previous != "" then [Revoke(previous)] else []) + [Grant(next)]
  }

  /** What a re-election sends: the outgoing host is always revoked, and the
      winner, if there is one, is granted. */
  function ElectionNotices(previous: string, accesses: seq<BoardAccess>, candidates: seq<Client>): seq<Send>
  {
    [Revoke(previous)] +
    match FirstQualifying(accesses, candidates)
    case Some(i) => [Grant(candidates[i].connectionId)]
    case None => []
  }

  /** What evicting each of `evicted`, in order, sends. */
  function EvictionNotices(evicted: seq<Client>, slug: string): seq<Send>
  {
    if evicted == [] then []
    else
      var c := evicted[|evicted| - 1];
      EvictionNotices(evicted[..|evicted| - 1], slug) +
      [Send(ToConnection(c.connectionId), ReassignUserToClient), Send(ToGroup(slug), ClientDisconnected(c.connectionId))]
  }

  /** What a completed join sends last: the snapshot to the caller, then the
      arrival to the rest of the group. */
  function JoinAnnouncements(connection: string, slug: string, members: seq<Client>, events: seq<BoardEvent>, age: int): seq<Send>
  {
    [Send(ToConnection(connection), ConnectionReady(Connections(members), events, age)),
     Send(ToGroupExcept(slug, connection), ClientConnected(connection))]
  }

  function Connections(clients: seq<Client>): (r: seq<string>)
    ensures |r| == |clients| && forall i :: 0 <= i < |r| ==> r[i] == clients[i].connectionId
  {
    seq(|clients|, i requires 0 <= i < |clients| => clients[i].connectionId)
  }

  /** The member list a joiner receives in ConnectionReady is exactly the set
      of connections bound on the board. */
  lemma MembersAreBoardConnections(entries: seq<Binding>, slug: string, id: string)
    requires ConnectionIdsMatch(entries)
    ensures id in Connections(InGroup(entries, slug)) <==>
      exists b :: b in entries && b.connection == id && b.client.group == slug
  {
    var members := InGroup(entries, slug);
    var ids := Connections(members);
    if id in ids {
      var i :| 0 <= i < |ids| && ids[i] == id;
      assert members[i] in members;
      var b :| b in entries && b.client == members[i];
      assert b.connection == id && b.client.group == slug;
    }
    if exists b :: b in entries && b.connection == id && b.client.group == slug {
      var b :| b in entries && b.connection == id && b.client.group == slug;
      assert b.client in members;
      var j :| 0 <= j < |members| && members[j] == b.client;
      assert ids[j] == id;
    }
  }

  /** `boardClients.Where(client => client.Id == userId)`. */
  function SameUser(clients: seq<Client>, userId: string): (r: seq<Client>)
    ensures forall c :: c in r ==> c in clients && c.id == userId
    ensures forall c :: c in clients && c.id == userId ==> c in r
  {
    if clients == [] then []
    else if clients[0].id == userId then [clients[0]] + SameUser(clients[1..], userId)
    else SameUser(clients[1..], userId)
  }

  /** Nobody is evicted when no present client has the joining user's id. */
  lemma NoSameUser(clients: seq<Client>, userId: string)
    requires forall c :: c in clients ==> c.id != userId
    ensures SameUser(clients, userId) == []
  {
  }

  /** The connection ids of `clients`. */
  function ConnectionSet(clients: seq<Client>): (r: set<string>)
    ensures forall c :: c in clients ==> c.connectionId in r
  {
    if clients == [] then {}
    else ConnectionSet(clients[..|clients| - 1]) + {clients[|clients| - 1].connectionId}
  }

  /** Every connection id in the set comes from one of the clients. */
  lemma {:induction false} ConnectionSetSource(clients: seq<Client>, id: string) returns (c: Client)
    requires id in ConnectionSet(clients)
    ensures c in clients && c.connectionId == id
  {
    var last := clients[|clients| - 1];
    if last.connectionId == id {
      c := last;
    } else {
      c := ConnectionSetSource(clients[..|clients| - 1], id);
    }
  }

  lemma EvictionNoticesAppend(evicted: seq<Client>, c: Client, slug: string)
    ensures EvictionNotices(evicted + [c], slug) == EvictionNotices(evicted, slug) +
      [Send(ToConnection(c.connectionId), ReassignUserToClient), Send(ToGroup(slug), ClientDisconnected(c.connectionId))]
  {
    assert (evicted + [c])[..|evicted|] == evicted;
  }

  lemma ConnectionSetAppend(clients: seq<Client>, c: Client)
    ensures ConnectionSet(clients + [c]) == ConnectionSet(clients) + {c.connectionId}
  {
    assert (clients + [c])[..|clients|] == clients;
  }

  /** Removing connection ids keeps the directory invariants of the hub. */
  lemma WithoutKeepsInvariants(entries: seq<Binding>, ids: set<string>)
    requires DistinctKeys(entries) && ConnectionIdsMatch(entries) && UniquePresence(entries)
    ensures var r := Without(entries, ids);
      DistinctKeys(r) && ConnectionIdsMatch(r) && UniquePresence(r)
  {
    WithoutKeepsDistinct(entries, ids);
  }

  /** Removing, by connection id, every client of user `userId` on board `slug`
      is evicting that user from that board, and nobody else. */
  lemma EvictedConnections(entries: seq<Binding>, slug: string, userId: string)
    requires DistinctKeys(entries) && ConnectionIdsMatch(entries)
    ensures Without(entries, ConnectionSet(SameUser(InGroup(entries, slug), userId))) == Evict(entries, slug, userId)
  {
    var ids := ConnectionSet(SameUser(InGroup(entries, slug), userId));
    forall i | 0 <= i < |entries| ensures entries[i].connection in ids <==> SameSeat(entries[i], slug, userId) {
      if entries[i].connection in ids {
        var c := ConnectionSetSource(SameUser(InGroup(entries, slug), userId), entries[i].connection);
        var b :| b in entries && b.client == c;
        var m :| 0 <= m < |entries| && entries[m] == b;
        assert m == i;
      }
      if SameSeat(entries[i], slug, userId) {
        assert entries[i].client in SameUser(InGroup(entries, slug), userId);
      }
    }
    WithoutSeatHolders(entries, ids, slug, userId);
  }

  /** Eviction keeps the keys distinct. */
  lemma {:induction false} EvictKeepsDistinct(entries: seq<Binding>, slug: string, userId: string)
    requires DistinctKeys(entries)
    ensures DistinctKeys(Evict(entries, slug, userId))
  {
    if entries != [] {
      DistinctKeysCons(entries);
      EvictKeepsDistinct(entries[1..], slug, userId);
      if !SameSeat(entries[0], slug, userId) {
        DistinctKeysCons(Evict(entries, slug, userId));
      }
    }
  }

  /** After a join of user `userId` on board `slug` through `connection`, the
      caller's binding is the only one for that user on that board, every
      binding of another seat on another connection is kept, and the
      directory invariants still hold. */
  lemma JoinSeatIsCaller(entries: seq<Binding>, slug: string, userId: string, connection: string, c: Client)
    requires DistinctKeys(entries) && ConnectionIdsMatch(entries) && UniquePresence(entries)
    requires c.connectionId == connection && c.group == slug && c.id == userId
    ensures var r := Bind(Evict(entries, slug, userId), connection, c);
      && DistinctKeys(r) && ConnectionIdsMatch(r) && UniquePresence(r)
      && Lookup(r, connection) == Some(c)
      && (forall b :: b in r && SameSeat(b, slug, userId) ==> b == Binding(connection, c))
      && (forall b :: b in entries && !SameSeat(b, slug, userId) && b.connection != connection ==> b in r)
  {
    var e := Evict(entries, slug, userId);
    EvictKeepsDistinct(entries, slug, userId);
    BindKeepsDistinct(e, connection, c);
    var r := Bind(e, connection, c);
    LookupBound(r, Binding(connection, c));
  }

  /** The winner of a re-election over the clients of one board is the client
      of the earliest binding on that board that qualifies; `i` is that
      binding's position in the directory. */
  lemma {:induction false} EarliestQualifying(entries: seq<Binding>, slug: string, accesses: seq<BoardAccess>) returns (i: nat)
    requires FirstQualifying(accesses, InGroup(entries, slug)).Some?
    ensures i < |entries| && entries[i].client.group == slug
    ensures entries[i].client == InGroup(entries, slug)[FirstQualifying(accesses, InGroup(entries, slug)).value]
    ensures forall j :: 0 <= j < i && entries[j].client.group == slug ==> !Qualifies(accesses, entries[j].client)
  {
    var h := entries[0].client;
    var t := entries[1..];
    var rest := InGroup(t, slug);
    InGroupUnfold(entries, slug);
    if h.group == slug && Qualifies(accesses, h) {
      i := 0;
    } else {
      var i' := EarliestQualifying(t, slug, accesses);
      var k := FirstQualifying(accesses, rest).value;
      assert t[i'].client == rest[k];
      if h.group == slug {
        SkipUnqualified(accesses, h, rest);
        assert InGroup(entries, slug)[1 + k] == rest[k];
      }
      i := i' + 1;
      assert entries[i] == t[i'];
      NoEarlierWinner(entries, slug, accesses, i');
    }
  }

  lemma InGroupUnfold(entries: seq<Binding>, slug: string)
    requires entries != []
    ensures InGroup(entries, slug) ==
      if entries[0].client.group == slug then [entries[0].client] + InGroup(entries[1..], slug)
      else InGroup(entries[1..], slug)
  {
  }

  /** Nobody before position `n + 1` qualifies when the head does not and
      nobody before position `n` of the tail does. */
  lemma NoEarlierWinner(entries: seq<Binding>, slug: string, accesses: seq<BoardAccess>, n: nat)
    requires n < |entries| - 1
    requires var h := entries[0].client; !(h.group == slug && Qualifies(accesses, h))
    requires forall j :: 0 <= j < n && entries[1..][j].client.group == slug ==> !Qualifies(accesses, entries[1..][j].client)
    ensures forall j :: 0 <= j < n + 1 && entries[j].client.group == slug ==> !Qualifies(accesses, entries[j].client)
  {
    forall j | 0 <= j < n + 1 && entries[j].client.group == slug
      ensures !Qualifies(accesses, entries[j].client)
    {
      if j > 0 {
        assert entries[j] == entries[1..][j - 1];
      }
    }
  }

  /** A re-election over the clients of one board follows the directory's
      order: nobody is chosen exactly when no client of the board qualifies,
      and otherwise the chosen client is of the earliest binding on that board
      that qualifies. */
  lemma ElectionFollowsArrivalOrder(entries: seq<Binding>, slug: string, accesses: seq<BoardAccess>)
    ensures FirstQualifying(accesses, InGroup(entries, slug)).None? <==>
      forall i :: 0 <= i < |entries| && entries[i].client.group == slug ==> !Qualifies(accesses, entries[i].client)
    ensures FirstQualifying(accesses, InGroup(entries, slug)).Some? ==>
      exists i :: 0 <= i < |entries|
        && entries[i].client == InGroup(entries, slug)[FirstQualifying(accesses, InGroup(entries, slug)).value]
        && entries[i].client.group == slug && Qualifies(accesses, entries[i].client)
        && forall j :: 0 <= j < i && entries[j].client.group == slug ==> !Qualifies(accesses, entries[j].client)
  {
    var members := InGroup(entries, slug);
    if FirstQualifying(accesses, members).Some? {
      var i := EarliestQualifying(entries, slug, accesses);
    } else {
      forall i | 0 <= i < |entries| && entries[i].client.group == slug
        ensures !Qualifies(accesses, entries[i].client)
      {
        assert entries[i] in entries;
        assert entries[i].client in members;
      }
    }
  }

  function Own(b: Board?): set<object>
  {
    if b == null then {} else {b}
  }

  function OwnClient(c: Option<Client>): set<object>
  {
    if c.None? then {} else {c.value}
  }

  class BoardHub {
    const boardManager: BoardManager
    const clientManager: ClientManager
    ghost var outbox: seq<Send>

    /** The registry is keyed by slug; the directory has distinct connection
        ids, each client carries the connection id it is bound under, and no
        user is present twice on one board. */
    ghost predicate Valid()
      reads boardManager, clientManager
    {
      && boardManager.Valid()
      && clientManager.Valid()
      && ConnectionIdsMatch(clientManager.entries)
      && UniquePresence(clientManager.entries)
    }

    constructor (boardManager: BoardManager, clientManager: ClientManager)
      requires boardManager.Valid() && clientManager.Valid()
      requires ConnectionIdsMatch(clientManager.entries) && UniquePresence(clientManager.entries)
      ensures this.boardManager == boardManager && this.clientManager == clientManager
      ensures Valid() && outbox == []
    {
      this.boardManager := boardManager;
      this.clientManager := clientManager;
      outbox := [];
    }

    /** The client bound to a connection. */
    function Caller(connection: string): Option<Client>
      reads clientManager
    {
      clientManager.AsClient(connection)
    }

    /** The live board of the client bound to a connection, if both exist. */
    function CallerBoard(connection: string): Board?
      reads boardManager, clientManager
    {
      match Caller(connection)
      case None => null
      case Some(c) => boardManager.GetBoard(c.group)
    }

    /** OnDisconnectedAsync. A connection with no client, or whose board is no
        longer registered, changes nothing (its binding stays). Otherwise the
        binding goes; the board goes with its last client; and if the leaver
        was host, the remaining clients elect a new one. */
    method OnDisconnected(connection: string)
      requires Valid()
      modifies this, boardManager, clientManager, Own(CallerBoard(connection))
      ensures Valid()
      ensures old(CallerBoard(connection)) == null ==>
        && outbox == old(outbox)
        && boardManager.boards == old(boardManager.boards)
        && clientManager.entries == old(clientManager.entries)
      ensures old(CallerBoard(connection)) != null ==>
        var c := old(Caller(connection)).value;
        var b := old(CallerBoard(connection));
        var rest := InGroup(clientManager.entries, c.group);
        var left := Send(ToGroup(c.group), ClientDisconnected(connection));
        && clientManager.entries == Without(old(clientManager.entries), {connection})
        && (rest == [] ==>
              && boardManager.boards == old(boardManager.boards) - {c.group}
              && b.Snapshot() == old(b.Snapshot())
              && outbox == old(outbox) + [left])
        && (rest != [] && old(b.host) == connection ==>
              && boardManager.boards == old(boardManager.boards)
              && b.Snapshot() == old(b.Snapshot()).(host := ElectedHost(b.accesses, rest))
              && outbox == old(outbox) + [left] + ElectionNotices(connection, b.accesses, rest))
        && (rest != [] && old(b.host) != connection ==>
              && boardManager.boards == old(boardManager.boards)
              && b.Snapshot() == old(b.Snapshot())
              && outbox == old(outbox) + [left])
      ensures old(CallerBoard(connection)) != null ==>
        var slug := old(Caller(connection)).value.group;
        slug in boardManager.boards ==> InGroup(clientManager.entries, slug) != []
    {
      var caller := clientManager.AsClient(connection);
      if caller.Some? {
        var client := caller.value;
        var board := boardManager.GetBoard(client.group);
        if board != null {
          outbox := outbox + [Send(ToGroup(client.group), ClientDisconnected(connection))];
          clientManager.RemoveClient(connection);
          var clients := clientManager.GetClientsFromBoard(client.group);
          if |clients| == 0 {
            boardManager.RemoveBoard(client.group);
          } else if board.host == connection {
            FindNewBoardHost(board, clients);
          }
        }
      }
    }

    /** The part of Join that finds the board and settles the host. A cold slug
        is fetched; a refused fetch fails the join before anything changes,
        and an accepted one is registered under its own slug with the caller
        as host. On a live board the caller takes over as host when it is the
        author, or when nobody is host and it has Editor-or-higher access. */
    method LoadBoardAndGrantHost(connection: string, userId: string, slug: string, remote: Option<ApiResponse>)
      returns (board: Board?)
      requires Valid()
      modifies this, boardManager, Own(boardManager.GetBoard(slug))
      ensures Valid() && clientManager.entries == old(clientManager.entries)
      ensures board == null <==> slug !in old(boardManager.boards) && GetRemoteBoardData(remote).None?
      ensures board == null ==> outbox == old(outbox) && boardManager.boards == old(boardManager.boards)
      ensures board != null && slug !in old(boardManager.boards) ==>
        && fresh(board)
        && board.Snapshot() == GetRemoteBoardData(remote).value.(host := connection)
        && (board.slug in old(boardManager.boards) ==> boardManager.boards == old(boardManager.boards))
        && (board.slug !in old(boardManager.boards) ==> boardManager.boards == old(boardManager.boards)[board.slug := board])
        && outbox == old(outbox) + [Grant(connection)]
      ensures board != null && slug in old(boardManager.boards) ==>
        var previous := old(boardManager.boards[slug].host);
        var granted := GrantsHostOnJoin(board.author, previous, board.accesses, userId);
        && board == old(boardManager.boards[slug])
        && boardManager.boards == old(boardManager.boards)
        && board.Snapshot() == old(boardManager.boards[slug].Snapshot()).(host := if granted then connection else previous)
        && outbox == old(outbox) + (if granted then HandoverOnJoin(previous, connection) else [])
    {
      board := boardManager.GetBoard(slug);
      if board == null {
        var record := GetRemoteBoardData(remote);
        if record.None? {
          return;
        }
        board := new Board(record.value);
        board.host := connection;
        boardManager.AddBoard(board);
        outbox := outbox + [Grant(connection)];
      } else if GrantsHostOnJoin(board.author, board.host, board.accesses, userId) {
        if board.host != "" {
          outbox := outbox + [Revoke(board.host)];
        }
        board.host := connection;
        outbox := outbox + [Grant(connection)];
      }
    }

    /** The eviction loop of Join: every client of user `userId` on board
        `slug` is told to reassign itself, announced as gone and unbound, in
        directory order. */
    method EvictSameUser(slug: string, userId: string)
      requires Valid()
      modifies this, clientManager
      ensures Valid()
      ensures clientManager.entries == Evict(old(clientManager.entries), slug, userId)
      ensures outbox == old(outbox) + EvictionNotices(SameUser(InGroup(old(clientManager.entries), slug), userId), slug)
    {
      ghost var start := clientManager.entries;
      var boardClients := clientManager.GetClientsFromBoard(slug);
      var clientsWithSameUser := SameUser(boardClients, userId);
      EvictEach(slug, clientsWithSameUser, start);
      WithoutKeepsInvariants(start, ConnectionSet(clientsWithSameUser));
      EvictedConnections(start, slug, userId);
    }

    /** The loop itself: each client in `evicted`, in order, is told to
        reassign itself, announced as gone and unbound. */
    method EvictEach(slug: string, evicted: seq<Client>, ghost start: seq<Binding>)
      requires DistinctKeys(start) && clientManager.entries == start
      modifies this, clientManager
      ensures clientManager.entries == Without(start, ConnectionSet(evicted))
      ensures outbox == old(outbox) + EvictionNotices(evicted, slug)
    {
      ghost var sent := outbox;
      ghost var done: seq<Client> := [];
      var i := 0;
      while i < |evicted|
        invariant 0 <= i <= |evicted| && done == evicted[..i]
        invariant clientManager.entries == Without(start, ConnectionSet(done))
        invariant outbox == sent + EvictionNotices(done, slug)
      {
        var c := evicted[i];
        EvictOne(slug, c, start, sent, done);
        PrefixGrows(evicted, i);
        done := done + [c];
        i := i + 1;
      }
      assert done == evicted;
    }

    /** One turn of the eviction loop: the client `c` is told to reassign
        itself, announced as gone and unbound. */
    method EvictOne(slug: string, c: Client, ghost start: seq<Binding>, ghost sent: seq<Send>, ghost done: seq<Client>)
      requires DistinctKeys(start)
      requires clientManager.entries == Without(start, ConnectionSet(done))
      requires outbox == sent + EvictionNotices(done, slug)
      modifies this, clientManager
      ensures clientManager.entries == Without(start, ConnectionSet(done + [c]))
      ensures outbox == old(outbox) + [Send(ToConnection(c.connectionId), ReassignUserToClient), Send(ToGroup(slug), ClientDisconnected(c.connectionId))]
      ensures outbox == sent + EvictionNotices(done + [c], slug)
    {
      EvictionNoticesAppend(done, c, slug);
      ConcatAssoc(sent, EvictionNotices(done, slug),
        [Send(ToConnection(c.connectionId), ReassignUserToClient), Send(ToGroup(slug), ClientDisconnected(c.connectionId))]);
      ghost var removed := ConnectionSet(done);
      WithoutKeepsDistinct(start, removed);
      outbox := outbox + [Send(ToConnection(c.connectionId), ReassignUserToClient), Send(ToGroup(slug), ClientDisconnected(c.connectionId))];
      clientManager.RemoveClient(c.connectionId);
      WithoutTwice(start, removed, {c.connectionId});
      ConnectionSetAppend(done, c);
    }

    /** The directory part of Join: evict the user's other clients on the
        board, then bind the caller's new client. */
    method AdmitClient(connection: string, c: Client)
      requires Valid()
      requires c.connectionId == connection
      modifies this, clientManager
      ensures Valid()
      ensures clientManager.entries == Bind(Evict(old(clientManager.entries), c.group, c.id), connection, c)
      ensures outbox == old(outbox) + EvictionNotices(SameUser(InGroup(old(clientManager.entries), c.group), c.id), c.group)
      ensures clientManager.AsClient(connection) == Some(c)
      ensures forall b :: b in clientManager.entries && SameSeat(b, c.group, c.id) ==> b == Binding(connection, c)
      ensures forall b :: b in old(clientManager.entries) && !SameSeat(b, c.group, c.id) && b.connection != connection ==>
        b in clientManager.entries
    {
      JoinSeatIsCaller(clientManager.entries, c.group, c.id, connection, c);
      EvictSameUser(c.group, c.id);
      clientManager.AddClient(connection, c);
    }

    /** Join(user, slug) through `connection`. `remote` is what the store's
        fetch delivered, and is used only when the slug is cold. */
    method Join(connection: string, user: JoinRequest, slug: string, remote: Option<ApiResponse>)
      returns (joined: bool, ghost board: Board?, ghost client: Client?)
      requires Valid()
      modifies this, boardManager, clientManager, Own(boardManager.GetBoard(slug))
      ensures Valid()
      ensures joined <==> slug in old(boardManager.boards) || GetRemoteBoardData(remote).Some?
      ensures !joined ==>
        && outbox == old(outbox)
        && boardManager.boards == old(boardManager.boards)
        && clientManager.entries == old(clientManager.entries)
      ensures joined ==> board != null && client != null && fresh(client)
      // the board and its host
      ensures joined && slug !in old(boardManager.boards) ==>
        && fresh(board)
        && board.Snapshot() == GetRemoteBoardData(remote).value.(host := connection)
        && (board.slug in old(boardManager.boards) ==> boardManager.boards == old(boardManager.boards))
        && (board.slug !in old(boardManager.boards) ==> boardManager.boards == old(boardManager.boards)[board.slug := board])
        && outbox == old(outbox) + [Grant(connection)]
                   + EvictionNotices(SameUser(InGroup(old(clientManager.entries), slug), user.id), slug)
                   + JoinAnnouncements(connection, slug, InGroup(clientManager.entries, slug), board.events, board.age)
      ensures joined && slug in old(boardManager.boards) ==>
        var previous := old(boardManager.boards[slug].host);
        var granted := GrantsHostOnJoin(board.author, previous, board.accesses, user.id);
        && board == old(boardManager.boards[slug])
        && boardManager.boards == old(boardManager.boards)
        && board.Snapshot() == old(boardManager.boards[slug].Snapshot()).(host := if granted then connection else previous)
        && outbox == old(outbox) + (if granted then HandoverOnJoin(previous, connection) else [])
                   + EvictionNotices(SameUser(InGroup(old(clientManager.entries), slug), user.id), slug)
                   + JoinAnnouncements(connection, slug, InGroup(clientManager.entries, slug), board.events, board.age)
      // the directory
      ensures joined ==>
        && client.connectionId == connection && client.group == slug
        && client.id == user.id && client.name == user.name && client.avatar == user.avatar
        && client.pointerX == user.pointerX && client.pointerY == user.pointerY
        && client.pointerType == Mouse && !client.afk
        && clientManager.entries == Bind(Evict(old(clientManager.entries), slug, user.id), connection, client)
        && clientManager.AsClient(connection) == Some(client)
        && (forall b :: b in clientManager.entries && SameSeat(b, slug, user.id) ==> b == Binding(connection, client))
        && (forall b :: b in old(clientManager.entries) && !SameSeat(b, slug, user.id) && b.connection != connection ==>
              b in clientManager.entries)
    {
      var live := LoadBoardAndGrantHost(connection, user.id, slug, remote);
      board := live;
      if live == null {
        joined, client := false, null;
        return;
      }
      var c := SeatClient(connection, user, slug, live);
      joined, client := true, c;
    }

    /** The part of Join after the board is settled: a new client for the
        caller is bound in place of the user's other clients on the board,
        and the caller gets the snapshot while the group hears of the arrival. */
    method SeatClient(connection: string, user: JoinRequest, slug: string, live: Board) returns (client: Client)
      requires Valid()
      modifies this, clientManager
      ensures Valid()
      ensures fresh(client)
      ensures outbox == old(outbox)
                 + EvictionNotices(SameUser(InGroup(old(clientManager.entries), slug), user.id), slug)
                 + JoinAnnouncements(connection, slug, InGroup(clientManager.entries, slug), live.events, live.age)
      ensures
        && client.connectionId == connection && client.group == slug
        && client.id == user.id && client.name == user.name && client.avatar == user.avatar
        && client.pointerX == user.pointerX && client.pointerY == user.pointerY
        && client.pointerType == Mouse && !client.afk
        && clientManager.entries == Bind(Evict(old(clientManager.entries), slug, user.id), connection, client)
        && clientManager.AsClient(connection) == Some(client)
        && (forall b :: b in clientManager.entries && SameSeat(b, slug, user.id) ==> b == Binding(connection, client))
        && (forall b :: b in old(clientManager.entries) && !SameSeat(b, slug, user.id) && b.connection != connection ==>
              b in clientManager.entries)
    {
      client := new Client(connection, user, slug);
      AdmitClient(connection, client);
      var members := clientManager.GetClientsFromBoard(slug);
      outbox := outbox + JoinAnnouncements(connection, slug, members, live.events, live.age);
    }

    /** SetPointerPosition: overwrites the caller's pointer; nothing is sent. */
    method SetPointerPosition(connection: string, pointerX: Coordinate, pointerY: Coordinate, pointerType: PointerType)
      modifies OwnClient(Caller(connection))
      ensures old(Caller(connection)).Some? ==>
        var c := old(Caller(connection)).value;
        c.pointerX == pointerX && c.pointerY == pointerY && c.pointerType == pointerType && c.afk == old(c.afk)
    {
      var caller := clientManager.AsClient(connection);
      if caller.Some? {
        var client := caller.value;
        client.pointerX, client.pointerY, client.pointerType := pointerX, pointerY, pointerType;
      }
    }

    /** SetAfk: sets the caller's afk flag and tells its group, whether or not
        the board is still registered. */
    method SetAfk(connection: string, afk: bool)
      modifies this, OwnClient(Caller(connection))
      ensures old(Caller(connection)).None? ==> outbox == old(outbox)
      ensures old(Caller(connection)).Some? ==>
        var c := old(Caller(connection)).value;
        && c.afk == afk
        && c.pointerX == old(c.pointerX) && c.pointerY == old(c.pointerY) && c.pointerType == old(c.pointerType)
        && outbox == old(outbox) + [Send(ToGroup(c.group), ClientAfkUpdated(connection, afk))]
    {
      var caller := clientManager.AsClient(connection);
      if caller.Some? {
        var client := caller.value;
        client.afk := afk;
        outbox := outbox + [Send(ToGroup(client.group), ClientAfkUpdated(connection, afk))];
      }
    }

    /** BoardActionPerformed: exactly one event, by the caller's user id, is
        appended to the journal and broadcast when the board is public, the
        caller is its author or holds Editor-or-higher access; otherwise the
        action is dropped silently. */
    method BoardActionPerformed(connection: string, action: Action)
      requires Valid()
      modifies this, Own(CallerBoard(connection))
      ensures Valid()
      ensures old(CallerBoard(connection)) == null ==> outbox == old(outbox)
      ensures old(CallerBoard(connection)) != null ==>
        var b := old(CallerBoard(connection));
        var c := old(Caller(connection)).value;
        var event := BoardEvent(c.id, action);
        if MayPerform(b.isPublic, b.author, old(b.accesses), c.id)
        then b.Snapshot() == old(b.Snapshot()).(events := old(b.events) + [event])
             && outbox == old(outbox) + [Send(ToGroup(c.group), PerformBoardAction(event))]
        else b.Snapshot() == old(b.Snapshot()) && outbox == old(outbox)
    {
      var caller := clientManager.AsClient(connection);
      if caller.Some? {
        var client := caller.value;
        var board := boardManager.GetBoard(client.group);
        if board != null {
          if MayPerform(board.isPublic, board.author, board.accesses, client.id) {
            var boardEvent := BoardEvent(client.id, action);
            board.events := board.events + [boardEvent];
            outbox := outbox + [Send(ToGroup(client.group), PerformBoardAction(boardEvent))];
          }
        }
      }
    }

    /** AccessesModified: replaces the access list, tells the rest of the
        group, and re-elects the host only when the host's connection is bound
        and its user now has an entry of exactly Viewer. */
    method AccessesModified(connection: string, accesses: seq<BoardAccess>)
      requires Valid()
      modifies this, Own(CallerBoard(connection))
      ensures Valid()
      ensures old(CallerBoard(connection)) == null ==> outbox == old(outbox)
      ensures old(CallerBoard(connection)) != null ==>
        var b := old(CallerBoard(connection));
        var hostClient := clientManager.AsClient(old(b.host));
        var reelect := hostClient.Some? && AnyOfLevel(accesses, hostClient.value.id, Viewer);
        var members := InGroup(clientManager.entries, b.slug);
        && b.Snapshot() == old(b.Snapshot()).(accesses := accesses, host := if reelect then ElectedHost(accesses, members) else old(b.host))
        && outbox == old(outbox) + [Send(ToGroupExcept(b.slug, connection), BoardAccessesModified(accesses))]
                   + (if reelect then ElectionNotices(old(b.host), accesses, members) else [])
    {
      var caller := clientManager.AsClient(connection);
      if caller.Some? {
        var board := boardManager.GetBoard(caller.value.group);
        if board != null {
          board.accesses := accesses;
          outbox := outbox + [Send(ToGroupExcept(board.slug, connection), BoardAccessesModified(accesses))];
          var hostClient := clientManager.AsClient(board.host);
          if hostClient.Some? && AnyOfLevel(board.accesses, hostClient.value.id, Viewer) {
            FindNewBoardHost(board, clientManager.GetClientsFromBoard(board.slug));
          }
        }
      }
    }

    /** CloseBoard: unregisters the caller's board whatever the caller's role,
        after telling the rest of the group. Clients stay bound. */
    method CloseBoard(connection: string)
      requires Valid()
      modifies this, boardManager
      ensures Valid()
      ensures old(CallerBoard(connection)) == null ==>
        outbox == old(outbox) && boardManager.boards == old(boardManager.boards)
      ensures old(CallerBoard(connection)) != null ==>
        var b := old(CallerBoard(connection));
        && boardManager.boards == old(boardManager.boards) - {b.slug}
        && outbox == old(outbox) + [Send(ToGroupExcept(b.slug, connection), BoardClosed)]
    {
      var caller := clientManager.AsClient(connection);
      if caller.Some? {
        var board := boardManager.GetBoard(caller.value.group);
        if board != null {
          outbox := outbox + [Send(ToGroupExcept(board.slug, connection), BoardClosed)];
          boardManager.RemoveBoard(board.slug);
        }
      }
    }

    /** BoardSaved: the journal is cleared and the age raised by one, and the
        new age is broadcast. */
    method BoardSaved(connection: string)
      requires Valid()
      modifies this, Own(CallerBoard(connection))
      ensures Valid()
      ensures old(CallerBoard(connection)) == null ==> outbox == old(outbox)
      ensures old(CallerBoard(connection)) != null ==>
        var b := old(CallerBoard(connection));
        && b.Snapshot() == old(b.Snapshot()).(events := [], age := old(b.age) + 1)
        && outbox == old(outbox) + [Send(ToGroup(b.slug), BoardAged(old(b.age) + 1))]
    {
      var caller := clientManager.AsClient(connection);
      if caller.Some? {
        var board := boardManager.GetBoard(caller.value.group);
        if board != null {
          board.events := [];
          board.age := board.age + 1;
          outbox := outbox + [Send(ToGroup(board.slug), BoardAged(board.age))];
        }
      }
    }

    /** SetBoardName: any joined client may rename its board. */
    method SetBoardName(connection: string, name: string)
      requires Valid()
      modifies this, Own(CallerBoard(connection))
      ensures Valid()
      ensures old(CallerBoard(connection)) == null ==> outbox == old(outbox)
      ensures old(CallerBoard(connection)) != null ==>
        var b := old(CallerBoard(connection));
        && b.Snapshot() == old(b.Snapshot()).(name := name)
        && outbox == old(outbox) + [Send(ToGroup(b.slug), BoardNameChanged(name))]
    {
      var caller := clientManager.AsClient(connection);
      if caller.Some? {
        var client := caller.value;
        var board := boardManager.GetBoard(client.group);
        if board != null {
          board.name := name;
          outbox := outbox + [Send(ToGroup(client.group), BoardNameChanged(name))];
        }
      }
    }

    /** FindNewBoardHost: revokes the current host, then hands the role to the
        first candidate with Editor-or-higher access, or to nobody (""). */
    method FindNewBoardHost(board: Board, clients: seq<Client>)
      modifies this, board
      ensures board.Snapshot() == old(board.Snapshot()).(host := ElectedHost(board.accesses, clients))
      ensures outbox == old(outbox) + ElectionNotices(old(board.host), board.accesses, clients)
    {
      outbox := outbox + [Revoke(board.host)];
      var winner := FirstQualifying(board.accesses, clients);
      if winner.Some? {
        board.host := clients[winner.value].connectionId;
        outbox := outbox + [Grant(board.host)];
      } else {
        board.host := "";
      }
    }
  }
}
