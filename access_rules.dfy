/** The authorisation rules the hub applies: who may append to the journal,
    who is granted the host role on join, and who wins a host re-election. */
module AccessRules {
  import opened Wrappers
  import opened Models

  /** `access.User?.Id == userId`: an entry whose user is null matches nobody. */
  predicate EntryFor(a: BoardAccess, userId: string)
  {
    a.user.Some? && a.user.value.id == userId
  }

  /** `board.Author?.Id == userId`. */
  predicate IsAuthor(author: Option<User>, userId: string)
  {
    author.Some? && author.value.id == userId
  }

  /** `accesses.Any(access => access.User?.Id == userId && access.Type >= bound)`,
      evaluated left to right as LINQ does. */
  function AnyAtLeast(accesses: seq<BoardAccess>, userId: string, bound: AccessType): (r: bool)
    ensures r <==> exists i :: 0 <= i < |accesses| && EntryFor(accesses[i], userId) && AtLeast(accesses[i].accessType, bound)
  {
    if accesses == [] then false
    else if EntryFor(accesses[0], userId) && AtLeast(accesses[0].accessType, bound) then true
    else
      var r := AnyAtLeast(accesses[1..], userId, bound);
      assert forall i :: 1 <= i < |accesses| ==> accesses[i] == accesses[1..][i - 1];
      r
  }

  /** `accesses.Any(access => access.User?.Id == userId && access.Type == level)`. */
  function AnyOfLevel(accesses: seq<BoardAccess>, userId: string, level: AccessType): (r: bool)
    ensures r <==> exists i :: 0 <= i < |accesses| && EntryFor(accesses[i], userId) && accesses[i].accessType == level
  {
    if accesses == [] then false
    else if EntryFor(accesses[0], userId) && accesses[0].accessType == level then true
    else
      var r := AnyOfLevel(accesses[1..], userId, level);
      assert forall i :: 1 <= i < |accesses| ==> accesses[i] == accesses[1..][i - 1];
      r
  }

  /** The Editor-or-higher test. */
  predicate HasEditorAccess(accesses: seq<BoardAccess>, userId: string)
  {
    AnyAtLeast(accesses, userId, Editor)
  }

  /** The gate on the journal (BoardActionPerformed): a public board, the author,
      or an access entry of Editor or higher. */
  predicate MayPerform(isPublic: bool, author: Option<User>, accesses: seq<BoardAccess>, userId: string)
  {
    isPublic || IsAuthor(author, userId) || HasEditorAccess(accesses, userId)
  }

  /** The host grant on joining a live board: the author always takes over; an
      Editor-or-higher user only when nobody is host. */
  predicate GrantsHostOnJoin(author: Option<User>, host: string, accesses: seq<BoardAccess>, userId: string)
  {
    IsAuthor(author, userId) || (host == "" && HasEditorAccess(accesses, userId))
  }

  /** A candidate for host re-election: holds an Editor-or-higher entry. Being
      the author does not count here. */
  predicate Qualifies(accesses: seq<BoardAccess>, c: Client)
  {
    HasEditorAccess(accesses, c.id)
  }

  /** The position of the first qualifying candidate (`clients.First(...)`), or
      None where `First` throws InvalidOperationException. */
  function FirstQualifying(accesses: seq<BoardAccess>, candidates: seq<Client>): (r: Option<nat>)
    ensures r.Some? ==> r.value < |candidates| && Qualifies(accesses, candidates[r.value])
    ensures r.Some? ==> forall j :: 0 <= j < r.value ==> !Qualifies(accesses, candidates[j])
    ensures r.None? <==> forall j :: 0 <= j < |candidates| ==> !Qualifies(accesses, candidates[j])
  {
    if candidates == [] then None
    else if Qualifies(accesses, candidates[0]) then Some(0)
    else
      match FirstQualifying(accesses, candidates[1..])
      case None =>
        assert forall j :: 1 <= j < |candidates| ==> candidates[j] == candidates[1..][j - 1];
        None
      case Some(i) =>
        assert forall j :: 1 <= j < i + 1 ==> candidates[j] == candidates[1..][j - 1];
        Some(i + 1)
  }

  /** The host a re-election leaves on the board: the connection of the first
      qualifying candidate, or "" when there is none. */
  function ElectedHost(accesses: seq<BoardAccess>, candidates: seq<Client>): string
  {
    match FirstQualifying(accesses, candidates)
    case Some(i) => candidates[i].connectionId
    case None => ""
  }

  /** A journal append is refused exactly when the board is private, the
      caller is not its author and every entry the caller has is Viewer. */
  lemma MayPerformUnlessViewerOnly(isPublic: bool, author: Option<User>, accesses: seq<BoardAccess>, userId: string)
    ensures !MayPerform(isPublic, author, accesses, userId) <==>
      && !isPublic
      && !IsAuthor(author, userId)
      && forall i :: 0 <= i < |accesses| && EntryFor(accesses[i], userId) ==> accesses[i].accessType == Viewer
  {
    if !MayPerform(isPublic, author, accesses, userId) {
      forall i | 0 <= i < |accesses| && EntryFor(accesses[i], userId)
        ensures accesses[i].accessType == Viewer
      {
        assert !AtLeast(accesses[i].accessType, Editor);
      }
    }
  }

  /** One candidate who does not qualify shifts the winner's position by one. */
  lemma SkipUnqualified(accesses: seq<BoardAccess>, c: Client, rest: seq<Client>)
    requires !Qualifies(accesses, c)
    ensures FirstQualifying(accesses, [c] + rest) ==
      match FirstQualifying(accesses, rest)
      case None => None
      case Some(i) => Some(1 + i)
  {
    assert ([c] + rest)[0] == c;
    assert ([c] + rest)[1..] == rest;
  }

  /** Candidates that do not qualify can be put in front of the sequence
      without changing who is chosen: only the winner's position moves. */
  lemma {:induction false} ElectionSkipsUnqualifiedPrefix(accesses: seq<BoardAccess>, prefix: seq<Client>, rest: seq<Client>)
    requires forall j :: 0 <= j < |prefix| ==> !Qualifies(accesses, prefix[j])
    ensures FirstQualifying(accesses, prefix + rest) ==
      match FirstQualifying(accesses, rest)
      case None => None
      case Some(i) => Some(|prefix| + i)
  {
    if prefix == [] {
      assert prefix + rest == rest;
    } else {
      var tail := prefix[1..] + rest;
      assert prefix + rest == [prefix[0]] + tail;
      ElectionSkipsUnqualifiedPrefix(accesses, prefix[1..], rest);
      SkipUnqualified(accesses, prefix[0], tail);
    }
  }

  /** The elected host is the same with or without such a prefix. */
  lemma ElectedHostSkipsUnqualifiedPrefix(accesses: seq<BoardAccess>, prefix: seq<Client>, rest: seq<Client>)
    requires forall j :: 0 <= j < |prefix| ==> !Qualifies(accesses, prefix[j])
    ensures ElectedHost(accesses, prefix + rest) == ElectedHost(accesses, rest)
  {
    ElectionSkipsUnqualifiedPrefix(accesses, prefix, rest);
    match FirstQualifying(accesses, rest)
    case None =>
    case Some(i) => assert (prefix + rest)[|prefix| + i] == rest[i];
  }
}
