/**
 * `GET /api/getPins` (app/api/getPins/route.ts): with a bearer token, lists
 * the caller's boards at the provider, fetches each board's pins, and answers
 * all of them in board order. The provider's answers are inputs: `boards` is
 * the board list (`None` when that request fails) and `pinsOf` the pin list
 * of a board (`None` when that request fails).
 */
module GetPinsRoute {
  import opened Wrappers
  import opened Js
  import opened Http
  import opened Pinterest

  datatype Body = Failure(error: string) | AllPins(totalPins: nat, pins: seq<Pin>)

  /** A request to the provider: address, `Authorization` header, `page_size`. */
  datatype Request = Request(url: string, authorization: string, pageSize: nat)

  /** The response and the provider requests made to produce it. */
  datatype Handled = Handled(response: Response<Body>, requests: seq<Request>)

  const BoardsUrl := "https://api.pinterest.com/v5/user_account/boards"
  const PageSize := 100

  function BoardPinsUrl(boardId: string): string {
    "https://api.pinterest.com/v5/boards/" + boardId + "/pins"
  }

  predicate HasBearer(authHeader: Option<string>) {
    Truthy(authHeader) && StartsWith(authHeader.value, "Bearer ")
  }

  /** `authHeader.split(' ')[1]`: the text after `Bearer ` up to the next space. */
  function BearerToken(header: string): (token: string)
    requires StartsWith(header, "Bearer ")
    ensures token == Split(header[7..], " ")[0]
  {
    assert header == "Bearer" + [' '] + header[7..];
    SplitAtChar("Bearer", ' ', header[7..]);
    Split(header, " ")[1]
  }

  /** A header `Bearer <t>` with no space inside `t` gives exactly `t`. */
  lemma BearerTokenIsSecondField(t: string)
    requires ' ' !in t
    ensures BearerToken("Bearer " + t) == t
  {
    assert ("Bearer " + t)[7..] == t;
    NoSeparatorNoSplit(t, ' ');
  }

  /** `pinsResults.flat()` */
  function Flatten(lists: seq<seq<Pin>>): (r: seq<Pin>)
  {
    if lists == [] then [] else lists[0] + Flatten(lists[1..])
  }

  lemma {:induction false} FlattenAppend(a: seq<seq<Pin>>, b: seq<seq<Pin>>)
    ensures Flatten(a + b) == Flatten(a) + Flatten(b)
    decreases |a|
  {
    if a == [] {
      assert a + b == b;
    } else {
      assert (a + b)[0] == a[0];
      assert (a + b)[1..] == a[1..] + b;
      FlattenAppend(a[1..], b);
    }
  }

  /** `Promise.all` over the boards: every board's list, in board order, or
      `None` as soon as one request fails. */
  function AllBoardPins(boards: seq<Board>, pinsOf: string -> Option<seq<Pin>>): (r: Option<seq<seq<Pin>>>)
    ensures r.None? <==> exists k :: 0 <= k < |boards| && pinsOf(boards[k].id).None?
    ensures r.Some? ==> |r.value| == |boards| && forall k :: 0 <= k < |boards| ==> r.value[k] == pinsOf(boards[k].id).value
  {
    if boards == [] then Some([])
    else
      match (pinsOf(boards[0].id), AllBoardPins(boards[1..], pinsOf))
      case (Some(first), Some(rest)) =>
        assert forall k :: 1 <= k < |boards| ==> boards[k] == boards[1..][k - 1];
        Some([first] + rest)
      case (None, _) => None
      case (_, None) =>
        assert forall k :: 0 <= k < |boards[1..]| ==> boards[1..][k] == boards[k + 1];
        None
  }

  /** The provider requests: the board list, then one per board once the list
      has arrived; all with the caller's token and one page of 100. */
  function Requests(token: string, boards: Option<seq<Board>>): (r: seq<Request>)
    ensures |r| >= 1 && r[0].url == BoardsUrl
    ensures forall k :: 0 <= k < |r| ==> r[k].authorization == "Bearer " + token && r[k].pageSize == PageSize
  {
    [Request(BoardsUrl, "Bearer " + token, PageSize)]
      + if boards.None? then []
        else seq(|boards.value|, k requires 0 <= k < |boards.value| => Request(BoardPinsUrl(boards.value[k].id), "Bearer " + token, PageSize))
  }

  /** `GET` */
  function Get(authHeader: Option<string>, boards: Option<seq<Board>>, pinsOf: string -> Option<seq<Pin>>): (h: Handled)
    ensures !HasBearer(authHeader) ==> h.response.status == 401 && h.requests == []
    ensures h.response.status == 200 <==> h.response.body.AllPins?
    ensures h.response.status == 200 ==> h.response.body.totalPins == |h.response.body.pins|
    ensures h.response.status in {200, 401, 500}
    ensures HasBearer(authHeader) ==> h.requests == Requests(BearerToken(authHeader.value), boards)
  {
    if !HasBearer(authHeader) then
      Handled(Response(401, [], Failure("Missing or invalid authorization header")), [])
    else
      var token := BearerToken(authHeader.value);
      var requests := Requests(token, boards);
      if boards.None? then
        Handled(Response(500, [], Failure("Failed to fetch pins")), requests)
      else
        match AllBoardPins(boards.value, pinsOf)
        case None => Handled(Response(500, [], Failure("Failed to fetch pins")), requests)
        case Some(lists) =>
          var pins := Flatten(lists);
          Handled(Response(200, [], AllPins(|pins|, pins)), requests)
  }

  /** The answer is all pins of all boards, in board order: the pins of
      `boards + [b]` are the pins of `boards` followed by those of `b`. */
  lemma PinsInBoardOrder(authHeader: Option<string>, boards: seq<Board>, b: Board, pinsOf: string -> Option<seq<Pin>>)
    requires HasBearer(authHeader)
    requires Get(authHeader, Some(boards + [b]), pinsOf).response.status == 200
    ensures Get(authHeader, Some(boards), pinsOf).response.status == 200
    ensures pinsOf(b.id).Some?
    ensures Get(authHeader, Some(boards + [b]), pinsOf).response.body.pins
         == Get(authHeader, Some(boards), pinsOf).response.body.pins + pinsOf(b.id).value
  {
    var all := boards + [b];
    assert forall k :: 0 <= k < |boards| ==> all[k] == boards[k];
    assert all[|boards|] == b;
    var lists := AllBoardPins(all, pinsOf).value;
    var front := AllBoardPins(boards, pinsOf).value;
    assert lists == front + [pinsOf(b.id).value];
    FlattenAppend(front, [pinsOf(b.id).value]);
    assert Flatten([pinsOf(b.id).value]) == pinsOf(b.id).value + Flatten([]);
  }

  /** The pin lists of the boards, in board order, when every request
      succeeded. */
  function BoardLists(boards: seq<Board>, pinsOf: string -> Option<seq<Pin>>): seq<seq<Pin>>
    requires forall k :: 0 <= k < |boards| ==> pinsOf(boards[k].id).Some?
  {
    seq(|boards|, k requires 0 <= k < |boards| => pinsOf(boards[k].id).value)
  }

  /** When the board list and every board's pins arrive, the answer is 200
      with all the pins, board by board, and their count. */
  lemma AllRequestsSucceed(authHeader: Option<string>, boards: seq<Board>, pinsOf: string -> Option<seq<Pin>>)
    requires HasBearer(authHeader)
    requires forall k :: 0 <= k < |boards| ==> pinsOf(boards[k].id).Some?
    ensures Get(authHeader, Some(boards), pinsOf).response
         == Response(200, [], AllPins(|Flatten(BoardLists(boards, pinsOf))|, Flatten(BoardLists(boards, pinsOf))))
  {
    assert AllBoardPins(boards, pinsOf).value == BoardLists(boards, pinsOf);
  }

  /** No boards: 200 with no pins and a count of 0. */
  lemma NoBoards(authHeader: Option<string>, pinsOf: string -> Option<seq<Pin>>)
    requires HasBearer(authHeader)
    ensures Get(authHeader, Some([]), pinsOf).response == Response(200, [], AllPins(0, []))
  {
  }

  /** One failing request fails the whole answer: 500, no partial pins. */
  lemma AnyFailureFailsAll(authHeader: Option<string>, boards: Option<seq<Board>>, pinsOf: string -> Option<seq<Pin>>)
    requires HasBearer(authHeader)
    requires boards.None? || exists k :: 0 <= k < |boards.value| && pinsOf(boards.value[k].id).None?
    ensures Get(authHeader, boards, pinsOf).response == Response(500, [], Failure("Failed to fetch pins"))
  {
  }
}
