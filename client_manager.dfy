/** ClientManager: the presence directory from connection id to the Client
    bound to it.

    The directory is kept as a sequence of bindings in insertion order; a
    rebinding keeps its position and a new binding goes at the end. This is
    the order in which the model enumerates the directory (the order .NET
    gives `Dictionary.Values` is not specified), so the "first" client of a
    host re-election is the one bound earliest among those still present. */
module PresenceDirectory {
  import opened Wrappers
  import opened Models

  datatype Binding = Binding(connection: string, client: Client)

  /** Some binding has this connection id. */
  predicate Bound(entries: seq<Binding>, id: string)
  {
    exists b :: b in entries && b.connection == id
  }

  /** No binding in `entries` has connection id `id`. */
  predicate KeyFree(entries: seq<Binding>, id: string)
  {
    forall b :: b in entries ==> b.connection != id
  }

  /** A dictionary has each key once. */
  predicate DistinctKeys(entries: seq<Binding>)
  {
    forall i, j :: 0 <= i < j < |entries| ==> entries[i].connection != entries[j].connection
  }

  /** The binding belongs to user `userId` on board `slug`. */
  predicate SameSeat(b: Binding, slug: string, userId: string)
  {
    b.client.group == slug && b.client.id == userId
  }

  /** `_clients.TryGetValue(id, out client)`. */
  function Lookup(entries: seq<Binding>, id: string): (r: Option<Client>)
    ensures r.Some? <==> Bound(entries, id)
    ensures r.Some? ==> Binding(id, r.value) in entries
  {
    if entries == [] then None
    else if entries[0].connection == id then Some(entries[0].client)
    else Lookup(entries[1..], id)
  }

  /** `AddClient`: overwrite the binding of `id` where it stands, or append one. */
  function Bind(entries: seq<Binding>, id: string, c: Client): (r: seq<Binding>)
    ensures Binding(id, c) in r
    ensures forall b :: b in r ==> b == Binding(id, c) || b in entries
    ensures forall b :: b in entries && b.connection != id ==> b in r
    ensures |r| == if Bound(entries, id) then |entries| else |entries| + 1
    ensures KeyFree(entries, id) ==> r == entries + [Binding(id, c)]
  {
    if entries == [] then [Binding(id, c)]
    else if entries[0].connection == id then [Binding(id, c)] + entries[1..]
    else [entries[0]] + Bind(entries[1..], id, c)
  }

  /** The directory after removing every connection id in `ids`. */
  function Without(entries: seq<Binding>, ids: set<string>): (r: seq<Binding>)
    ensures forall b :: b in r ==> b in entries && b.connection !in ids
    ensures forall b :: b in entries && b.connection !in ids ==> b in r
    ensures (forall b :: b in entries ==> b.connection !in ids) ==> r == entries
    ensures |r| <= |entries|
  {
    if entries == [] then []
    else if entries[0].connection in ids then Without(entries[1..], ids)
    else [entries[0]] + Without(entries[1..], ids)
  }

  /** The directory without the bindings of user `userId` on board `slug`. */
  function Evict(entries: seq<Binding>, slug: string, userId: string): (r: seq<Binding>)
    ensures forall b :: b in r ==> b in entries && !SameSeat(b, slug, userId)
    ensures forall b :: b in entries && !SameSeat(b, slug, userId) ==> b in r
    ensures (forall b :: b in entries ==> !SameSeat(b, slug, userId)) ==> r == entries
  {
    if entries == [] then []
    else if SameSeat(entries[0], slug, userId) then Evict(entries[1..], slug, userId)
    else [entries[0]] + Evict(entries[1..], slug, userId)
  }

  /** `_clients.Values.Where(client => client.Group == slug)`, in directory order. */
  function InGroup(entries: seq<Binding>, slug: string): (r: seq<Client>)
    ensures forall c :: c in r ==> c.group == slug && exists b :: b in entries && b.client == c
    ensures forall b :: b in entries && b.client.group == slug ==> b.client in r
    ensures |r| <= |entries|
  {
    if entries == [] then []
    else if entries[0].client.group == slug then [entries[0].client] + InGroup(entries[1..], slug)
    else InGroup(entries[1..], slug)
  }

  /** Every binding's client carries the connection id it is bound under. */
  predicate ConnectionIdsMatch(entries: seq<Binding>)
  {
    forall b :: b in entries ==> b.client.connectionId == b.connection
  }

  /** At most one binding per (board, user id): two bindings of one user on one
      board are the same binding. */
  predicate UniquePresence(entries: seq<Binding>)
  {
    forall b1, b2 :: b1 in entries && b2 in entries && b1.client.group == b2.client.group && b1.client.id == b2.client.id ==> b1 == b2
  }

  /** DistinctKeys, one element at a time. */
  lemma DistinctKeysCons(entries: seq<Binding>)
    requires entries != []
    ensures DistinctKeys(entries) <==> KeyFree(entries[1..], entries[0].connection) && DistinctKeys(entries[1..])
  {
    var t := entries[1..];
    if KeyFree(t, entries[0].connection) && DistinctKeys(t) {
      forall i, j | 0 <= i < j < |entries| ensures entries[i].connection != entries[j].connection {
        assert entries[j] == t[j - 1];
        if i > 0 { assert entries[i] == t[i - 1]; }
      }
    }
    if DistinctKeys(entries) {
      forall b | b in t ensures b.connection != entries[0].connection {
        var j :| 0 <= j < |t| && t[j] == b;
        assert entries[j + 1] == b;
      }
      forall i, j | 0 <= i < j < |t| ensures t[i].connection != t[j].connection {
        assert t[i] == entries[i + 1] && t[j] == entries[j + 1];
      }
    }
  }

  /** In a dictionary, the lookup of a bound connection id finds its binding. */
  lemma {:induction false} LookupBound(entries: seq<Binding>, b: Binding)
    requires DistinctKeys(entries) && b in entries
    ensures Lookup(entries, b.connection) == Some(b.client)
  {
    DistinctKeysCons(entries);
    if entries[0] != b {
      assert b in entries[1..];
      LookupBound(entries[1..], b);
    }
  }

  /** In a dictionary, the lookup of a connection id finds its one binding. */
  lemma LookupUnique(entries: seq<Binding>, id: string)
    ensures DistinctKeys(entries) ==> forall b :: b in entries && b.connection == id ==> Lookup(entries, id) == Some(b.client)
  {
    if DistinctKeys(entries) {
      forall b | b in entries && b.connection == id ensures Lookup(entries, id) == Some(b.client) {
        LookupBound(entries, b);
      }
    }
  }

  /** A removed connection id has no binding left. */
  lemma WithoutUnbinds(entries: seq<Binding>, id: string)
    ensures Lookup(Without(entries, {id}), id) == None
  {
  }

  /** Removal keeps the keys distinct, and removing a bound key shrinks the
      directory by exactly one. */
  lemma {:induction false} WithoutKeepsDistinct(entries: seq<Binding>, ids: set<string>)
    requires DistinctKeys(entries)
    ensures DistinctKeys(Without(entries, ids))
  {
    if entries != [] {
      DistinctKeysCons(entries);
      WithoutKeepsDistinct(entries[1..], ids);
      if entries[0].connection !in ids {
        DistinctKeysCons(Without(entries, ids));
      }
    }
  }

  lemma {:induction false} WithoutOneSize(entries: seq<Binding>, id: string)
    requires DistinctKeys(entries)
    ensures |Without(entries, {id})| == if Bound(entries, id) then |entries| - 1 else |entries|
  {
    if entries != [] {
      DistinctKeysCons(entries);
      WithoutOneSize(entries[1..], id);
      if entries[0].connection == id {
        assert !Bound(entries[1..], id);
      } else {
        assert Bound(entries, id) == Bound(entries[1..], id);
      }
    }
  }

  /** Removing one set of ids and then another removes their union. */
  lemma {:induction false} WithoutTwice(entries: seq<Binding>, s: set<string>, t: set<string>)
    ensures Without(Without(entries, s), t) == Without(entries, s + t)
  {
    if entries != [] {
      WithoutTwice(entries[1..], s, t);
    }
  }

  /** Removing exactly the connection ids held by user `userId` on board `slug`
      is the eviction of that user from that board. */
  lemma {:induction false} WithoutSeatHolders(entries: seq<Binding>, ids: set<string>, slug: string, userId: string)
    requires forall i :: 0 <= i < |entries| ==> (entries[i].connection in ids <==> SameSeat(entries[i], slug, userId))
    ensures Without(entries, ids) == Evict(entries, slug, userId)
  {
    if entries != [] {
      assert forall i :: 1 <= i < |entries| ==> entries[1..][i - 1] == entries[i];
      WithoutSeatHolders(entries[1..], ids, slug, userId);
    }
  }

  /** Binding keeps the keys distinct and replaces any earlier binding of `id`. */
  lemma {:induction false} BindKeepsDistinct(entries: seq<Binding>, id: string, c: Client)
    requires DistinctKeys(entries)
    ensures DistinctKeys(Bind(entries, id, c))
    ensures forall b :: b in Bind(entries, id, c) && b.connection == id ==> b == Binding(id, c)
  {
    if entries != [] {
      DistinctKeysCons(entries);
      if entries[0].connection == id {
        DistinctKeysCons(Bind(entries, id, c));
      } else {
        BindKeepsDistinct(entries[1..], id, c);
        DistinctKeysCons(Bind(entries, id, c));
      }
    }
  }

  /** Round trip: after binding `id` to `c`, the lookup of `id` gives `c`, and
      every other connection id is looked up as before. */
  lemma BindThenLookup(entries: seq<Binding>, id: string, c: Client, other: string)
    requires DistinctKeys(entries) && other != id
    ensures Lookup(Bind(entries, id, c), id) == Some(c)
    ensures Lookup(Bind(entries, id, c), other) == Lookup(entries, other)
  {
    BindKeepsDistinct(entries, id, c);
    LookupBound(Bind(entries, id, c), Binding(id, c));
    match Lookup(entries, other)
    case None =>
    case Some(x) =>
      LookupBound(entries, Binding(other, x));
      LookupBound(Bind(entries, id, c), Binding(other, x));
  }

  /** Round trip: after removing `id`, every other connection id is looked up
      as before. */
  lemma WithoutThenLookup(entries: seq<Binding>, id: string, other: string)
    requires DistinctKeys(entries) && other != id
    ensures Lookup(Without(entries, {id}), other) == Lookup(entries, other)
  {
    WithoutKeepsDistinct(entries, {id});
    match Lookup(entries, other)
    case None =>
    case Some(x) =>
      LookupBound(entries, Binding(other, x));
      LookupBound(Without(entries, {id}), Binding(other, x));
  }

  /** When each client carries its own connection id, the members of a board
      are listed without repetition. */
  lemma {:induction false} InGroupDistinct(entries: seq<Binding>, slug: string)
    requires DistinctKeys(entries) && ConnectionIdsMatch(entries)
    ensures forall i, j :: 0 <= i < j < |InGroup(entries, slug)| ==> InGroup(entries, slug)[i] != InGroup(entries, slug)[j]
  {
    if entries != [] {
      DistinctKeysCons(entries);
      InGroupDistinct(entries[1..], slug);
      var t := InGroup(entries[1..], slug);
      if entries[0].client.group == slug {
        assert entries[0].client !in t;
        var r := InGroup(entries, slug);
        forall i, j | 0 <= i < j < |r| ensures r[i] != r[j] {
          assert r[j] == t[j - 1];
          if i > 0 { assert r[i] == t[i - 1]; }
        }
      }
    }
  }

  class ClientManager {
    var entries: seq<Binding>

    ghost predicate Valid()
      reads this
    {
      DistinctKeys(entries)
    }

    constructor ()
      ensures Valid() && entries == []
    {
      entries := [];
    }

    /** Binds `id` to `client`, overwriting an existing binding: the number of
        bindings grows by one exactly when `id` was unbound. */
    method AddClient(id: string, client: Client)
      requires Valid()
      modifies this
      ensures Valid()
      ensures entries == Bind(old(entries), id, client)
      ensures AsClient(id) == Some(client)
      ensures |entries| == if old(AsClient(id)).Some? then old(|entries|) else old(|entries|) + 1
      ensures forall other :: other != id ==> AsClient(other) == old(AsClient(other))
    {
      BindKeepsDistinct(entries, id, client);
      forall other | other != id ensures Lookup(Bind(entries, id, client), other) == Lookup(entries, other) {
        BindThenLookup(entries, id, client, other);
      }
      BindThenLookup(entries, id, client, if id == "" then "x" else "");
      entries := Bind(entries, id, client);
    }

    /** Unbinds `id`; a no-op when it is not bound. */
    method RemoveClient(id: string)
      requires Valid()
      modifies this
      ensures Valid()
      ensures entries == Without(old(entries), {id})
      ensures AsClient(id) == None
      ensures old(AsClient(id)).None? ==> entries == old(entries)
      ensures |entries| == if old(AsClient(id)).Some? then old(|entries|) - 1 else old(|entries|)
      ensures forall other :: other != id ==> AsClient(other) == old(AsClient(other))
    {
      WithoutKeepsDistinct(entries, {id});
      WithoutOneSize(entries, id);
      forall other | other != id ensures Lookup(Without(entries, {id}), other) == Lookup(entries, other) {
        WithoutThenLookup(entries, id, other);
      }
      entries := Without(entries, {id});
    }

    /** `AsClient(id, out client)`: the client bound to `id`, if any. */
    function AsClient(id: string): (r: Option<Client>)
      reads this
      ensures r.Some? <==> Bound(entries, id)
      ensures Valid() ==> forall b :: b in entries && b.connection == id ==> r == Some(b.client)
    {
      LookupUnique(entries, id);
      Lookup(entries, id)
    }

    /** The clients bound to board `slug`, in directory order. */
    function GetClientsFromBoard(slug: string): (r: seq<Client>)
      reads this
      ensures forall c :: c in r ==> c.group == slug && exists b :: b in entries && b.client == c
      ensures forall b :: b in entries && b.client.group == slug ==> b.client in r
    {
      InGroup(entries, slug)
    }
  }
}
