# Greyboard session engine — a Dafny model

Greyboard is a collaborative whiteboard. Its real-time server keeps three
things in memory:

- the **board registry**: the live boards, keyed by slug;
- the **presence directory**: the client bound to each connection id;
- the **fields of each board**: its access list, its host, its journal of
  unsaved actions and its age.

A board's host is the one connection allowed to persist it; the empty string
means nobody is host.

Every hub RPC is modelled as one atomic step over these structures:

- Join, Disconnect, SetPointerPosition, SetAfk, BoardActionPerformed;
- AccessesModified (host re-election), CloseBoard, BoardSaved, SetBoardName.

The messages the hub sends are recorded, in call order, in a ghost outbox.

Modules:

- `Models`: the records.
  - `Board` and `Client` are classes, because the hub assigns their fields in
    place.
  - Access entries, users, journal events and the store's response envelope
    are datatypes.
- `AccessRules`: the authorisation predicates.
  - Who may append to the journal.
  - Who takes the host role on join.
  - Who wins a re-election.
- `BoardRegistry`: `BoardManager` over a `map<string, Board>`, and the
  envelope decision of the remote fetch.
- `PresenceDirectory`: `ClientManager` over an insertion-ordered sequence of
  bindings, with the functions that specify it (`Lookup`, `Bind`, `Without`,
  `Evict`, `InGroup`) and the lemmas about them.
- `Hubs`: `BoardHub`, its invariant and its RPCs, with the message datatypes
  and the lemmas that tie the eviction loop and the host election to the
  directory.
- `Scenarios`: verified call sequences through the hub, with their outcomes as
  postconditions.
- `SeqFacts`: small sequence identities that keep the proofs cheap; they carry
  no part of the model.

The invariant `BoardHub.Valid` states four things, and every RPC preserves it:

- every board is registered under its own slug;
- connection ids in the directory are distinct;
- every client carries the connection id it is bound under;
- no user is present twice on one board.

Where the pieces of the source disagree, the model follows the hub's code:

- `Greyboard/Core/Models/Board.cs` declares only Id, Name, Slug and Actions.
  The model gives `Board` the fields the hub reads and writes (Host, Events,
  Age, Accesses, Author, isPublic).
- `Greyboard/Hubs/BoardHub.cs:79` calls GetRemoteBoardData with three
  arguments. `Greyboard/Managers/BoardManager.cs:52` declares two. The model
  takes the fetch's outcome as a parameter, so the argument list does not
  matter.
- A disconnecting client whose board is no longer registered (for example
  after CloseBoard) keeps its binding. This is how `BoardHub.cs:36-58` is
  written.
- A host re-election after an access change happens only when the host's
  user has an entry of exactly Viewer (`BoardHub.cs:214`). Being demoted to
  anything else, or losing every entry, does not trigger one.

## Model

| member | source | states |
|---|---|---|
| `Models.Board.constructor` | Greyboard/Managers/BoardManager.cs:65-71 | a fetched board's fields are exactly those of the record the store sent |
| `Models.Client.constructor` | Greyboard/Hubs/BoardHub.cs:102-111 | the caller's new client takes connection, identity, board and pointer from the join; pointer type is Mouse and afk is false |
| `AccessRules.AnyAtLeast` | Greyboard/Hubs/BoardHub.cs:180 | true exactly when some access entry belongs to the user and has at least the given level; entries with a null user match nobody |
| `AccessRules.AnyOfLevel` | Greyboard/Hubs/BoardHub.cs:214 | true exactly when some access entry belongs to the user and has exactly the given level |
| `AccessRules.FirstQualifying` | Greyboard/Hubs/BoardHub.cs:295 | the chosen candidate has Editor or higher and every earlier one does not; there is no choice exactly when no candidate qualifies (where `First` throws) |
| `AccessRules.MayPerformUnlessViewerOnly` | Greyboard/Hubs/BoardHub.cs:180 | an action is refused exactly when the board is private, the caller is not the author, and every access entry of the caller is Viewer |
| `AccessRules.ElectionSkipsUnqualifiedPrefix` | Greyboard/Hubs/BoardHub.cs:295 | any sequence of non-qualifying candidates in front leaves the same winner, shifted by that sequence's length |
| `AccessRules.ElectedHostSkipsUnqualifiedPrefix` | Greyboard/Hubs/BoardHub.cs:295-301 | the connection that becomes host is the same with or without non-qualifying candidates in front |
| `BoardRegistry.BoardManager.constructor` | Greyboard/Managers/BoardManager.cs:13 | the registry starts empty and keyed by slug |
| `BoardRegistry.BoardManager.AddBoard` | Greyboard/Managers/BoardManager.cs:22-28 | a free slug gets the board; an occupied slug keeps its board (TryAdd never replaces); the registry stays keyed by slug |
| `BoardRegistry.BoardManager.RemoveBoard` | Greyboard/Managers/BoardManager.cs:30-36 | the slug is gone after the call, every other board stays, and an absent slug is a no-op |
| `BoardRegistry.BoardManager.GetBoards` | Greyboard/Managers/BoardManager.cs:38-41 | the result is exactly the registered boards, one per slug |
| `BoardRegistry.BoardManager.GetBoard` | Greyboard/Managers/BoardManager.cs:43-50 | null exactly when the slug is not registered; otherwise the board registered under it, whose slug is that slug |
| `BoardRegistry.KeyedValuesAreDistinct` | Greyboard/Managers/BoardManager.cs:38-41 | a registry keyed by slug holds as many distinct boards as slugs |
| `BoardRegistry.ValuesOfKeyedRegistry` | Greyboard/Managers/BoardManager.cs:38-41 | the same count, stated for any registry that is keyed by slug |
| `BoardRegistry.GetRemoteBoardData` | Greyboard/Managers/BoardManager.cs:52-78 | a board is returned exactly when an envelope arrived with status 200 and a result, and it is that result; every other outcome gives null |
| `PresenceDirectory.Lookup` | Greyboard/Managers/ClientManager.cs:38-41 | a client is found exactly when the connection id is bound, and it is a client bound under that id |
| `PresenceDirectory.Bind` | Greyboard/Managers/ClientManager.cs:16-28 | the new binding is present; the other bindings are kept; the size grows by one exactly when the id was unbound; a fresh id is appended at the end |
| `PresenceDirectory.Without` | Greyboard/Managers/ClientManager.cs:30-36 | exactly the bindings whose id is not removed remain; removing nothing present changes nothing |
| `PresenceDirectory.Evict` | Greyboard/Hubs/BoardHub.cs:113-120 | exactly the bindings that are not this user on this board remain |
| `PresenceDirectory.InGroup` | Greyboard/Managers/ClientManager.cs:43-46 | the result is exactly the clients bound to the board |
| `PresenceDirectory.DistinctKeysCons` | Greyboard/Managers/ClientManager.cs:9 | a directory has distinct keys exactly when its head's key is not in its tail and its tail has distinct keys |
| `PresenceDirectory.LookupBound` | Greyboard/Managers/ClientManager.cs:38-41 | when keys are distinct, looking up a binding's id finds that binding's client |
| `PresenceDirectory.LookupUnique` | Greyboard/Managers/ClientManager.cs:38-41 | when keys are distinct, every binding of an id is what the lookup of that id returns |
| `PresenceDirectory.WithoutUnbinds` | Greyboard/Managers/ClientManager.cs:30-36 | a removed connection id is no longer bound |
| `PresenceDirectory.WithoutKeepsDistinct` | Greyboard/Managers/ClientManager.cs:30-36 | removal keeps keys distinct |
| `PresenceDirectory.WithoutOneSize` | Greyboard/Managers/ClientManager.cs:30-36 | removing a bound id shrinks the directory by one; removing an unbound id leaves its size |
| `PresenceDirectory.WithoutTwice` | Greyboard/Hubs/BoardHub.cs:115-120 | removing one set of ids and then another is the same as removing their union (successive turns of the eviction loop) |
| `PresenceDirectory.WithoutSeatHolders` | Greyboard/Hubs/BoardHub.cs:113-120 | removing exactly the ids held by the user on the board is the eviction of that user from that board |
| `PresenceDirectory.BindKeepsDistinct` | Greyboard/Managers/ClientManager.cs:16-28 | binding keeps keys distinct, and the id's only binding afterwards is the new one (overwrite, not duplicate) |
| `PresenceDirectory.BindThenLookup` | Greyboard/Managers/ClientManager.cs:16-28 | after binding, the id looks up the new client and every other id looks up what it did before |
| `PresenceDirectory.WithoutThenLookup` | Greyboard/Managers/ClientManager.cs:30-36 | after removing an id, every other id looks up what it did before |
| `PresenceDirectory.InGroupDistinct` | Greyboard/Managers/ClientManager.cs:43-46 | a board's members are listed without repetition |
| `PresenceDirectory.ClientManager.constructor` | Greyboard/Managers/ClientManager.cs:9 | the directory starts empty |
| `PresenceDirectory.ClientManager.AddClient` | Greyboard/Managers/ClientManager.cs:16-28 | the id is bound to the client, overwriting any earlier binding; the count grows by one exactly when the id was new; every other id is unaffected |
| `PresenceDirectory.ClientManager.RemoveClient` | Greyboard/Managers/ClientManager.cs:30-36 | the id is unbound; the count drops by one exactly when it was bound; every other id is unaffected |
| `PresenceDirectory.ClientManager.AsClient` | Greyboard/Managers/ClientManager.cs:38-41 | found exactly when the id is bound, and then it is the one client bound to it |
| `PresenceDirectory.ClientManager.GetClientsFromBoard` | Greyboard/Managers/ClientManager.cs:43-46 | exactly the clients bound to the board |
| `Hubs.MembersAreBoardConnections` | Greyboard/Hubs/BoardHub.cs:125 | a connection id is in the member list a joiner receives exactly when that connection is bound on the board |
| `Hubs.SameUser` | Greyboard/Hubs/BoardHub.cs:114 | exactly the board's clients with the joining user's id |
| `Hubs.NoSameUser` | Greyboard/Hubs/BoardHub.cs:114-120 | a join evicts nobody when no present client has the user's id |
| `Hubs.ConnectionSet` | Greyboard/Hubs/BoardHub.cs:115-119 | every evicted client's connection id is among the ids removed |
| `Hubs.ConnectionSetSource` | Greyboard/Hubs/BoardHub.cs:115-119 | every id removed by the loop belongs to an evicted client |
| `Hubs.WithoutKeepsInvariants` | Greyboard/Hubs/BoardHub.cs:119 | unbinding connections keeps the hub's directory invariants |
| `Hubs.EvictedConnections` | Greyboard/Hubs/BoardHub.cs:113-120 | unbinding the connections of the board's clients with the user's id is the eviction of exactly that user's bindings on that board, and of nobody else |
| `Hubs.EvictKeepsDistinct` | Greyboard/Hubs/BoardHub.cs:113-120 | eviction keeps connection ids distinct |
| `Hubs.JoinSeatIsCaller` | Greyboard/Hubs/BoardHub.cs:113-123 | after eviction and binding, the caller's binding is the user's only one on the board, the caller's id looks up its new client, every other seat on another connection is kept, and the invariants hold |
| `Hubs.EarliestQualifying` | Greyboard/Hubs/BoardHub.cs:295 | the winner of a re-election over a board's clients is the client of the board's earliest qualifying binding |
| `Hubs.NoEarlierWinner` | Greyboard/Hubs/BoardHub.cs:295 | nobody qualifies before a position when neither the head nor the tail's earlier bindings do |
| `Hubs.ElectionFollowsArrivalOrder` | Greyboard/Hubs/BoardHub.cs:290-303 | the host becomes "" exactly when no client of the board qualifies; otherwise the new host is the earliest bound qualifying client of the board |
| `Hubs.BoardHub.constructor` | Greyboard/Hubs/BoardHub.cs:18-24 | the hub uses the given registry and directory and starts with an empty outbox |
| `Hubs.BoardHub.OnDisconnected` | Greyboard/Hubs/BoardHub.cs:32-66 | with no client or no live board nothing changes; otherwise the group hears of the departure and the binding goes; the board goes with its last client; a departing host triggers a re-election among those left; a board that stays registered is never empty |
| `Hubs.BoardHub.LoadBoardAndGrantHost` | Greyboard/Hubs/BoardHub.cs:72-100 | a cold slug whose fetch fails changes nothing; an accepted fetch registers a fresh board with the caller as host and grants it; on a live board the author always takes over, and an Editor takes over only when nobody is host, with the old host revoked first |
| `Hubs.BoardHub.EvictSameUser` | Greyboard/Hubs/BoardHub.cs:113-120 | the user's bindings on the board are removed and nothing else; each evicted connection gets a reassign message and the board hears of its departure, in directory order |
| `Hubs.BoardHub.EvictEach` | Greyboard/Hubs/BoardHub.cs:115-120 | after the loop exactly the listed connections are unbound and their notices were sent in list order |
| `Hubs.BoardHub.EvictOne` | Greyboard/Hubs/BoardHub.cs:117-119 | one loop turn: the connection is told to reassign and is announced as gone, then unbound |
| `Hubs.BoardHub.AdmitClient` | Greyboard/Hubs/BoardHub.cs:113-123 | the user's other clients on the board are evicted and the caller's client is bound; it is then the user's only seat on the board; every other seat is kept |
| `Hubs.BoardHub.Join` | Greyboard/Hubs/BoardHub.cs:68-136 | succeeds exactly when the slug is live or the fetch is accepted; a failed join changes nothing; on success the board, host and grants are set as above, the caller's earlier seats are evicted, its new client is bound, and the caller gets the member list, journal and age while the rest of the group hears of the arrival |
| `Hubs.BoardHub.SeatClient` | Greyboard/Hubs/BoardHub.cs:102-127 | the directory and messages of a join once its board is settled, as in Join |
| `Hubs.BoardHub.SetPointerPosition` | Greyboard/Hubs/BoardHub.cs:138-153 | a bound caller's pointer coordinates and type are overwritten and its afk flag kept; nothing is sent |
| `Hubs.BoardHub.SetAfk` | Greyboard/Hubs/BoardHub.cs:155-169 | a bound caller's afk flag is set and its group is told, even when the board is no longer registered; an unbound caller sends nothing |
| `Hubs.BoardHub.BoardActionPerformed` | Greyboard/Hubs/BoardHub.cs:171-197 | an allowed caller appends exactly one event with its user id and the group is sent that event; a refused caller leaves the board and the outbox unchanged |
| `Hubs.BoardHub.AccessesModified` | Greyboard/Hubs/BoardHub.cs:199-226 | the access list is replaced and the rest of the group is told; the host is re-elected exactly when its connection is bound and its user now has an entry of exactly Viewer |
| `Hubs.BoardHub.CloseBoard` | Greyboard/Hubs/BoardHub.cs:228-247 | the caller's board is unregistered whatever the caller's role, after the rest of the group is told; clients stay bound |
| `Hubs.BoardHub.BoardSaved` | Greyboard/Hubs/BoardHub.cs:249-268 | the journal is emptied, the age rises by one, every other field is kept, and the new age goes to the group |
| `Hubs.BoardHub.SetBoardName` | Greyboard/Hubs/BoardHub.cs:270-288 | any joined caller renames its board, every other field is kept, and the group is told the new name |
| `Hubs.BoardHub.FindNewBoardHost` | Greyboard/Hubs/BoardHub.cs:290-303 | the old host is always revoked; the host becomes the first candidate with Editor or higher and is granted, or "" with no grant when there is none |
| `Scenarios.AuthorThenGuest` | Greyboard/Hubs/BoardHub.cs:72-99 | the author opening a cold board becomes its host; a Viewer who joins afterwards does not |
| `Scenarios.ViewerActionIsDropped` | Greyboard/Hubs/BoardHub.cs:180 | of a Viewer's action and the author's action on a private board, only the author's reaches the journal |
| `Scenarios.Actions` | Greyboard/Hubs/BoardHub.cs:171-197 | the journal after a Viewer's and then the author's action holds only the author's |
| `Scenarios.AuthorOpens` | Greyboard/Hubs/BoardHub.cs:74-87 | a cold join registers the fetched record with the caller as host and binds the caller |
| `Scenarios.GuestJoins` | Greyboard/Hubs/BoardHub.cs:89-127 | a new user joining a live board leaves the board unchanged, is appended to the directory and is announced |
| `Scenarios.HostDrops` | Greyboard/Hubs/BoardHub.cs:52-54 | when the host's connection drops, the Editor among the remaining clients becomes host |
| `Scenarios.FirstLeaves` | Greyboard/Hubs/BoardHub.cs:43-45 | unbinding the first of three bindings on a board leaves the other two members, in order |
| `Scenarios.CrewElectsEditor` | Greyboard/Hubs/BoardHub.cs:295 | of a Viewer and then an Editor, the Editor is elected |
| `Scenarios.CrewArrives` | Greyboard/Hubs/BoardHub.cs:68-127 | three joins in turn bind the three clients in arrival order, and the author stays host |
| `Scenarios.HostDropElectsEditor` | Greyboard/Hubs/BoardHub.cs:290-303 | the Editor is elected even though the Viewer arrived before them |
| `Scenarios.AuthorAlone` | Greyboard/Hubs/BoardHub.cs:74-87 | the author opening a board with no entries is its only client and its host |
| `Scenarios.SameUserTwice` | Greyboard/Hubs/BoardHub.cs:113-127 | a second connection of the same user leaves that user with one client on the board, the new one; the first is told to reassign itself, then its departure is announced, then the newcomer gets the snapshot and the group hears of the arrival |
| `Scenarios.SeatTaken` | Greyboard/Hubs/BoardHub.cs:113-120 | a board's only binding, held by the joining user, is the one evicted, with its two notices |
| `Scenarios.SaveTwice` | Greyboard/Hubs/BoardHub.cs:258-259 | two saves in a row leave an empty journal and an age two higher |
| `Scenarios.LateJoinerSeesJournal` | Greyboard/Hubs/BoardHub.cs:125 | a user joining after an action is sent a ConnectionReady whose journal holds that action and whose member list is both connections |
| `Scenarios.TwoPresent` | Greyboard/Hubs/BoardHub.cs:125 | two bindings on a board are its member list, and their connection ids are what a joiner receives |

## Left out

- Transport: the SignalR transport is not modelled. The hub's sends go into a ghost outbox instead, in call order. A message that names a client carries its connection id instead of the whole Client.
- Groups.AddToGroupAsync (`BoardHub.cs:122`) is not modelled. A `ToGroup(slug)` target names the transport group, and the model does not resolve it to connections. In the source that group still holds connections evicted by a same-user join, since nothing removes them from it; they keep receiving the board's broadcasts until they disconnect.
- Context.Abort on a failed join is not modelled. The failed join is reported as `joined == false` with no state change.
- The HTTP fetch is not modelled: the origin header, the jwtToken cookie, CLIENT_URL and the status check of EnsureSuccessStatusCode. Their outcome is the parameter `remote` (None for a transport failure, a non-success status or a null body).
- GetRemoteBoardData's error message is not modelled, because it is logged and lost.
- Logging, OnConnectedAsync and the constructors' null checks are left out because they have no effect on the state. HeartBeatService, dependency injection, CORS and AppSettings are outside the session engine.
- Pointer coordinates are C# floats. They are kept as uninterpreted 32-bit patterns, because the hub only copies them. The PointerType enumeration and the action payload are opaque too.
- Exceptions inside the RPCs' try blocks are not modelled. The model has none to raise: a lookup that fails is a branch, and `First` over no candidates is the None case.
- Concurrency is not modelled. The source's `async void` RPCs and the unsynchronised dictionaries mean that calls may interleave. The model treats each RPC as one atomic step.
- Dictionary enumeration order: the directory enumerates bindings in insertion order, and rebinding an id keeps its place. .NET does not promise this order for `Dictionary.Values`, so the "first" client of a re-election is this model's assumption.
- Hubs.BoardHub.BoardSaved: the age is an unbounded integer. Board.cs does not declare Age, so its width is unknown and a wrap-around is not modelled.
- Hubs.BoardHub.Valid does not include "the host's connection is bound". The source does not keep that property: when an Editor who is host joins again from another connection while the host role is taken, the old connection is evicted and unbound but stays host.
- Board.cs is not followed field by field. As written it has only Id, Name, Slug and Actions, so the model uses the fields the hub reads and writes.
