/** Verified call sequences through the hub: small sessions whose outcomes
    are stated as postconditions. */
module Scenarios {
  import opened Wrappers
  import opened Models
  import opened AccessRules
  import opened BoardRegistry
  import opened PresenceDirectory
  import opened Hubs
  import opened SeqFacts

  function Alice(): User { User("alice", "Alice", "alice.png") }
  function Request(id: string): JoinRequest { JoinRequest(id, id, "", 0, 0) }
  function Fetched(accesses: seq<BoardAccess>): Option<ApiResponse>
  {
    Some(ApiResponse(200, Some(BoardRecord("b1", "Sketch", "abc", Some(Alice()), accesses, false, "", 0, [])), None))
  }
  method NewHub() returns (hub: BoardHub)
    ensures fresh(hub) && fresh(hub.boardManager) && fresh(hub.clientManager)
    ensures hub.Valid() && hub.boardManager.boards == map[] && hub.clientManager.entries == [] && hub.outbox == []
  {
    var boards := new BoardManager();
    var clients := new ClientManager();
    hub := new BoardHub(boards, clients);
  }
  /** Bob's only access entry on "abc": Viewer. */
  function ViewerBob(): seq<BoardAccess>
  {
    [BoardAccess("g1", "abc", Some(User("bob", "Bob", "")), Viewer)]
  }

  /** Alice, the author, opens the cold board "abc" and becomes its host;
      Bob, a Viewer, joins it without becoming host. */
  method AuthorThenGuest() returns (hub: BoardHub, live: Board)
    ensures fresh(hub) && fresh(live) && hub.Valid()
    ensures Seated(hub, "c1", live, "alice") && Seated(hub, "c2", live, "bob")
    ensures live.Snapshot() == BoardRecord("b1", "Sketch", "abc", Some(Alice()), ViewerBob(), false, "c1", 0, [])
  {
    hub := NewHub();
    var ok, board, alice := hub.Join("c1", Request("alice"), "abc", Fetched(ViewerBob()));
    assert hub.boardManager.boards == map["abc" := board];
    assert hub.outbox[0] == Send(ToConnection("c1"), UserAllowedToSave(true));
    live := hub.boardManager.GetBoard("abc");
    var ok2, board2, bob := hub.Join("c2", Request("bob"), "abc", None);
    assert !GrantsHostOnJoin(live.author, "c1", live.accesses, "bob");
    assert Binding("c1", alice) in hub.clientManager.entries;
  }

  /** On the private board, the action of Bob, a Viewer, is dropped, and
      Alice's is journaled. */
  method ViewerActionIsDropped(stroke: Action) returns (journal: seq<BoardEvent>)
    ensures journal == [BoardEvent("alice", stroke)]
  {
    var hub, live := AuthorThenGuest();
    journal := Actions(hub, live, stroke);
  }

  predicate Seated(hub: BoardHub, connection: string, board: Board, userId: string)
    reads hub, hub.clientManager, hub.boardManager
  {
    && hub.Caller(connection).Some? && hub.Caller(connection).value.id == userId
    && hub.CallerBoard(connection) == board
  }

  method Actions(hub: BoardHub, live: Board, stroke: Action) returns (journal: seq<BoardEvent>)
    requires hub.Valid()
    requires Seated(hub, "c1", live, "alice") && Seated(hub, "c2", live, "bob")
    requires live.author == Some(Alice()) && live.accesses == ViewerBob() && !live.isPublic && live.events == []
    modifies hub, live
    ensures journal == [BoardEvent("alice", stroke)]
  {
    assert !AtLeast(ViewerBob()[0].accessType, Editor);
    assert !MayPerform(false, Some(Alice()), ViewerBob(), "bob");
    hub.BoardActionPerformed("c2", stroke);
    assert live.events == [];
    hub.BoardActionPerformed("c1", stroke);
    journal := live.events;
    Single(BoardEvent("alice", stroke));
  }

  function Crew(): seq<BoardAccess>
  {
    [BoardAccess("g1", "abc", Some(User("bob", "Bob", "")), Viewer),
     BoardAccess("g2", "abc", Some(User("carol", "Carol", "")), Editor)]
  }

  /** Alice opens "abc", whose other accesses are Bob as Viewer and Carol as Editor. */
  method AuthorOpens() returns (hub: BoardHub, live: Board, ghost alice: Client)
    ensures fresh(hub) && fresh(hub.boardManager) && fresh(hub.clientManager) && fresh(live) && hub.Valid()
    ensures hub.boardManager.boards == map["abc" := live] && live.author == Some(Alice())
    ensures hub.clientManager.entries == [Binding("c1", alice)]
    ensures alice.id == "alice" && alice.group == "abc"
    ensures live.Snapshot() == BoardRecord("b1", "Sketch", "abc", Some(Alice()), Crew(), false, "c1", 0, [])
  {
    hub := NewHub();
    var ok, board, c := hub.Join("c1", Request("alice"), "abc", Fetched(Crew()));
    assert hub.boardManager.boards == map["abc" := board];
    live := hub.boardManager.GetBoard("abc");
    alice := c;
  }

  /** A user other than the author and the present users joins the warm board. */
  method GuestJoins(hub: BoardHub, live: Board, connection: string, userId: string) returns (ghost guest: Client)
    requires hub.Valid() && hub.boardManager.boards == map["abc" := live] && live.host == "c1"
    requires live.author == Some(Alice()) && userId != "alice" && connection != "c1"
    requires forall b :: b in hub.clientManager.entries ==> b.connection != connection && b.client.id != userId
    modifies hub, hub.boardManager, hub.clientManager, live
    ensures hub.Valid() && hub.boardManager.boards == map["abc" := live]
    ensures live.Snapshot() == old(live.Snapshot())
    ensures hub.outbox == old(hub.outbox) + JoinAnnouncements(connection, "abc", InGroup(hub.clientManager.entries, "abc"), live.events, live.age)
    ensures hub.clientManager.entries == old(hub.clientManager.entries) + [Binding(connection, guest)]
    ensures guest.id == userId && guest.group == "abc"
  {
    ghost var peers := InGroup(hub.clientManager.entries, "abc");
    NoSameUser(peers, userId);
    assert hub.boardManager.GetBoard("abc") == live;
    var ok, board, c := hub.Join(connection, Request(userId), "abc", None);
    guest := c;
  }

  /** The host's connection drops while Bob and Carol remain. */
  method HostDrops(hub: BoardHub, live: Board, ghost alice: Client, ghost bob: Client, ghost carol: Client)
    requires hub.Valid() && hub.boardManager.boards == map["abc" := live]
    requires hub.clientManager.entries == [Binding("c1", alice), Binding("c2", bob), Binding("c3", carol)]
    requires alice.group == "abc" && bob.group == "abc" && carol.group == "abc"
    requires bob.id == "bob" && carol.id == "carol"
    requires live.host == "c1" && live.accesses == Crew()
    modifies hub, hub.boardManager, hub.clientManager, live
    ensures live.host == "c3"
  {
    assert hub.Caller("c1") == Some(alice);
    assert hub.CallerBoard("c1") == live;
    FirstLeaves(Binding("c1", alice), Binding("c2", bob), Binding("c3", carol), "abc");
    hub.OnDisconnected("c1");
    CrewElectsEditor(bob, carol);
  }

  /** Unbinding the first of three bindings on one board leaves the other two
      clients, in order. */
  lemma FirstLeaves(a: Binding, b: Binding, c: Binding, slug: string)
    requires b.connection != a.connection && c.connection != a.connection
    requires b.client.group == slug && c.client.group == slug
    ensures Without([a, b, c], {a.connection}) == [b, c]
    ensures InGroup([b, c], slug) == [b.client, c.client]
  {
    assert [a, b, c][1..] == [b, c] && [b, c][1..] == [c] && [c][1..] == [];
  }

  /** Of Bob (Viewer) and Carol (Editor), in that order, Carol qualifies first. */
  lemma CrewElectsEditor(bob: Client, carol: Client)
    requires bob.id == "bob" && carol.id == "carol"
    ensures ElectedHost(Crew(), [bob, carol]) == carol.connectionId
  {
    assert !AnyAtLeast(Crew()[1..], "bob", Editor);
    assert !Qualifies(Crew(), bob);
    assert Qualifies(Crew(), carol);
    assert [bob, carol][1..] == [carol];
    assert FirstQualifying(Crew(), [carol]) == Some(0);
    assert FirstQualifying(Crew(), [bob, carol]) == Some(1);
  }

  /** Alice opens "abc"; Bob, then Carol, join it. */
  method CrewArrives() returns (hub: BoardHub, live: Board, ghost alice: Client, ghost bob: Client, ghost carol: Client)
    ensures fresh(hub) && fresh(hub.boardManager) && fresh(hub.clientManager) && fresh(live)
    ensures hub.Valid() && hub.boardManager.boards == map["abc" := live]
    ensures hub.clientManager.entries == [Binding("c1", alice), Binding("c2", bob), Binding("c3", carol)]
    ensures alice.group == "abc" && bob.group == "abc" && carol.group == "abc"
    ensures bob.id == "bob" && carol.id == "carol"
    ensures live.host == "c1" && live.accesses == Crew()
  {
    hub, live, alice := AuthorOpens();
    bob := GuestJoins(hub, live, "c2", "bob");
    carol := GuestJoins(hub, live, "c3", "carol");
    Pair(Binding("c1", alice), Binding("c2", bob));
    Triple(Binding("c1", alice), Binding("c2", bob), Binding("c3", carol));
  }

  /** Carol, the Editor, is elected; Bob, the Viewer, who arrived first, is not. */
  method HostDropElectsEditor() returns (host: string)
    ensures host == "c3"
  {
    var hub, live, alice, bob, carol := CrewArrives();
    HostDrops(hub, live, alice, bob, carol);
    host := live.host;
  }

  /** Two connections join as the same user: the first is told to reassign
      itself and is unbound, and only the second stays. */
  method SameUserTwice() returns (hub: BoardHub, members: seq<Client>)
    ensures |members| == 1 && members[0].connectionId == "c2"
    ensures |hub.outbox| >= 4 && hub.outbox[|hub.outbox| - 4..] ==
      [Send(ToConnection("c1"), ReassignUserToClient), Send(ToGroup("abc"), ClientDisconnected("c1")),
       Send(ToConnection("c2"), ConnectionReady(["c2"], [], 0)), Send(ToGroupExcept("abc", "c2"), ClientConnected("c2"))]
  {
    var board;
    ghost var first;
    hub, board, first := AuthorAlone();
    ghost var before := hub.outbox;
    SeatTaken(Binding("c1", first), "abc", "alice");
    assert hub.boardManager.GetBoard("abc") == board;
    var ok2, board2, second := hub.Join("c2", Request("alice"), "abc", None);
    members := hub.clientManager.GetClientsFromBoard("abc");
    assert Connections(members) == ["c2"];
    // Alice is the author, so her second connection takes the host role
    // from the first before the first is evicted.
    ghost var evicted := EvictionNotices([first], "abc");
    ghost var announced := JoinAnnouncements("c2", "abc", members, board.events, board.age);
    Suffix(before, HandoverOnJoin("c1", "c2"), evicted, announced);
    Quad(evicted[0], evicted[1], announced[0], announced[1]);
  }

  /** Alice opens "abc", which has no access entries, on connection c1. */
  method AuthorAlone() returns (hub: BoardHub, live: Board, ghost alice: Client)
    ensures fresh(hub) && fresh(hub.boardManager) && fresh(hub.clientManager) && fresh(live)
    ensures hub.Valid() && hub.boardManager.boards == map["abc" := live]
    ensures hub.clientManager.entries == [Binding("c1", alice)]
    ensures alice.id == "alice" && alice.group == "abc" && alice.connectionId == "c1"
    ensures live.author == Some(Alice()) && live.host == "c1" && live.events == [] && live.age == 0
  {
    hub := NewHub();
    var ok, board, c := hub.Join("c1", Request("alice"), "abc", Fetched([]));
    assert hub.boardManager.boards == map["abc" := board];
    live := hub.boardManager.GetBoard("abc");
    alice := c;
  }

  /** The only binding on a board, held by user `userId`, is the one a join
      of that user evicts. */
  lemma SeatTaken(a: Binding, slug: string, userId: string)
    requires a.client.group == slug && a.client.id == userId
    ensures Evict([a], slug, userId) == []
    ensures SameUser(InGroup([a], slug), userId) == [a.client]
    ensures EvictionNotices([a.client], slug) ==
      [Send(ToConnection(a.client.connectionId), ReassignUserToClient), Send(ToGroup(slug), ClientDisconnected(a.client.connectionId))]
  {
    assert [a][1..] == [] && [a.client][..0] == [];
  }

  /** Two saves with no action in between: the journal stays empty and the
      age goes up by two. */
  method SaveTwice(hub: BoardHub, connection: string)
    requires hub.Valid()
    modifies hub, Own(hub.CallerBoard(connection))
    ensures hub.Valid()
    ensures old(hub.CallerBoard(connection)) != null ==>
      var b := old(hub.CallerBoard(connection));
      b.Snapshot() == old(b.Snapshot()).(events := [], age := old(b.age) + 2)
  {
    hub.BoardSaved(connection);
    hub.BoardSaved(connection);
  }

  /** Alice draws before Bob arrives: the snapshot Bob receives on joining
      carries her action. */
  method LateJoinerSeesJournal(stroke: Action) returns (hub: BoardHub, journal: seq<BoardEvent>)
    ensures journal == [BoardEvent("alice", stroke)]
    ensures Send(ToConnection("c2"), ConnectionReady(["c1", "c2"], [BoardEvent("alice", stroke)], 0)) in hub.outbox
  {
    var live; ghost var alice;
    hub, live, alice := AuthorOpens();
    assert hub.Caller("c1") == Some(alice);
    hub.BoardActionPerformed("c1", stroke);
    ghost var before := hub.outbox;
    ghost var bob := GuestJoins(hub, live, "c2", "bob");
    Pair(Binding("c1", alice), Binding("c2", bob));
    TwoPresent(Binding("c1", alice), Binding("c2", bob), "abc");
    assert hub.clientManager.entries == [Binding("c1", alice), Binding("c2", bob)];
    assert alice.connectionId == "c1" && bob.connectionId == "c2";
    assert live.events == [BoardEvent("alice", stroke)] && live.age == 0;
    journal := live.events;
    First(before, JoinAnnouncements("c2", "abc", [alice, bob], journal, live.age));
    assert hub.outbox[|before|] ==
      Send(ToConnection("c2"), ConnectionReady(["c1", "c2"], [BoardEvent("alice", stroke)], 0));
  }

  /** Two bindings on one board, seen as that board's members. */
  lemma TwoPresent(a: Binding, b: Binding, slug: string)
    requires a.client.group == slug && b.client.group == slug
    ensures InGroup([a, b], slug) == [a.client, b.client]
    ensures Connections([a.client, b.client]) == [a.client.connectionId, b.client.connectionId]
  {
    assert [a, b][1..] == [b] && [b][1..] == [];
  }
}
