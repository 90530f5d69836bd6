/** BoardManager: the registry of live boards, keyed by slug, and the decision
    on the durable store's response envelope. */
module BoardRegistry {
  import opened Wrappers
  import opened Models

  /** Every board is registered under its own slug. */
  ghost predicate KeyedBySlug(boards: map<string, Board>)
  {
    forall s :: s in boards ==> boards[s].slug == s
  }

  class BoardManager {
    var boards: map<string, Board>

    ghost predicate Valid()
      reads this
    {
      KeyedBySlug(boards)
    }

    constructor ()
      ensures Valid() && boards == map[]
    {
      boards := map[];
    }

    /** `_boards.TryAdd(board.Slug, board)`: inserts only when the slug is
        free; a live board is never replaced. */
    method AddBoard(board: Board)
      requires Valid()
      modifies this
      ensures Valid()
      ensures board.slug in old(boards) ==> boards == old(boards)
      ensures board.slug !in old(boards) ==> boards == old(boards)[board.slug := board]
      ensures old(GetBoard(board.slug)) == null ==> GetBoard(board.slug) == board
      ensures old(GetBoard(board.slug)) != null ==> GetBoard(board.slug) == old(GetBoard(board.slug))
    {
      if board.slug !in boards {
        boards := boards[board.slug := board];
      }
    }

    /** `_boards.Remove(slug)`: a no-op when the slug is absent. */
    method RemoveBoard(slug: string)
      requires Valid()
      modifies this
      ensures Valid()
      ensures boards == old(boards) - {slug}
      ensures slug !in old(boards) ==> boards == old(boards)
      ensures GetBoard(slug) == null
    {
      boards := boards - {slug};
    }

    /** `_boards.Values`. */
    function GetBoards(): (r: set<Board>)
      reads this
      ensures forall s :: s in boards ==> boards[s] in r
      ensures forall b :: b in r ==> exists s :: s in boards && boards[s] == b
      ensures Valid() ==> |r| == |boards|
    {
      ValuesOfKeyedRegistry(boards);
      boards.Values
    }

    /** `_boards.TryGetValue(slug, out board)`, null when the slug is absent. */
    function GetBoard(slug: string): (r: Board?)
      reads this
      ensures r != null <==> slug in boards
      ensures r != null ==> r == boards[slug]
      ensures Valid() && r != null ==> r.slug == slug
    {
      if slug in boards then boards[slug] else null
    }
  }

  /** A registry keyed by slug holds one distinct board per slug, so it has as
      many values as keys. */
  lemma {:induction false} KeyedValuesAreDistinct(boards: map<string, Board>)
    requires KeyedBySlug(boards)
    ensures |boards.Values| == |boards|
    decreases |boards|
  {
    if boards != map[] {
      var s :| s in boards;
      var rest := boards - {s};
      KeyedValuesAreDistinct(rest);
      assert boards[s] !in rest.Values;
      assert boards.Values == rest.Values + {boards[s]} by {
        forall b | b in boards.Values ensures b in rest.Values + {boards[s]} {
          var t :| t in boards && boards[t] == b;
          if t != s { assert rest[t] == b; }
        }
      }
      assert |boards| == |rest| + 1 by {
        assert boards.Keys == rest.Keys + {s};
      }
    }
  }

  lemma ValuesOfKeyedRegistry(boards: map<string, Board>)
    ensures KeyedBySlug(boards) ==> |boards.Values| == |boards|
  {
    if KeyedBySlug(boards) {
      KeyedValuesAreDistinct(boards);
    }
  }

  /** The decision in GetRemoteBoardData on what the store sent back. `None`
      stands for every way of getting no envelope at all: a transport failure,
      a non-success HTTP status, or a body that deserialises to null. The board
      is accepted only from an envelope with status 200 and a result; every
      other case yields null (the thrown message is caught and lost). */
  function GetRemoteBoardData(response: Option<ApiResponse>): (r: Option<BoardRecord>)
    ensures r.Some? <==> response.Some? && response.value.status == 200 && response.value.result.Some?
    ensures r.Some? ==> r.value == response.value.result.value
  {
    match response
    case None => None
    case Some(data) =>
      if data.status != 200 || data.result.None? then None
      else data.result
  }
}
