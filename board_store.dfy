/**
 * The board handlers of handlers/board.go as methods of an in-memory database: each method
 * takes what the HTTP layer parsed (caller id from the auth middleware, path ids, decoded
 * body, the current time), runs the handler's checks in the handler's order and changes the
 * tables as its SQL statements do. Every method's result and new tables are those of the
 * matching function in BoardRules.
 */
module BoardHandlers {
  import opened Optional
  import opened Models
  import opened Access
  import opened BoardRules

  class BoardStore {
    var boards: seq<Board>
    var permissions: seq<BoardPermission>
    var elements: seq<BoardElement>
    var nextBoardId: int
    var nextElementId: int

    /** The three tables and the two serial counters as one value. */
    function State(): Tables
      reads this
    {
      Tables(boards, permissions, elements, nextBoardId, nextElementId)
    }

    ghost predicate Valid()
      reads this
    {
      BoardRules.Valid(State())
    }

    /** Opens a database that already holds `initial`. */
    constructor (initial: Tables)
      requires BoardRules.Valid(initial)
      ensures Valid() && State() == initial
    {
      boards := initial.boards;
      permissions := initial.permissions;
      elements := initial.elements;
      nextBoardId := initial.nextBoardId;
      nextElementId := initial.nextElementId;
    }

    /** The existence-and-edit-rights block shared by four handlers: one board lookup, then one grant lookup for non-creators. */
    method CheckEdit(boardId: int, user: int) returns (c: Check)
      ensures c == EditCheck(State(), boardId, user)
    {
      var board := FindBoard(boards, boardId);
      if board.None? {
        return Fail(NotFound);
      }
      if board.value.creatorId != user {
        var canEdit := FirstGrant(permissions, boardId, user);
        if canEdit.None? || !canEdit.value {
          return Fail(Forbidden);
        }
      }
      return Pass;
    }

    method CreateBoard(body: Json<BoardFields>, user: Option<int>, now: Time) returns (r: Response<int>)
      requires Valid()
      modifies this
      ensures Valid()
      ensures (r, State()) == BoardRules.CreateBoard(old(State()), body, user, now)
    {
      var req := BindCreateBoard(body);
      if req.None? {
        return Err(BadRequest);
      }
      if user.None? {
        return Err(Unauthorized);
      }
      var id := nextBoardId;
      boards := boards + [Board(id, req.value.title, req.value.description, user.value, req.value.isPublic, now, now)];
      nextBoardId := nextBoardId + 1;
      return Ok(id);
    }

    /** `SELECT ... FROM boards WHERE creator_id = $1`, read row by row. */
    method ScanOwnBoards(user: int) returns (rows: seq<Board>)
      ensures rows == OwnBoards(boards, user)
    {
      rows := [];
      var i := 0;
      while i < |boards|
        invariant 0 <= i <= |boards|
        invariant rows == OwnBoards(boards[..i], user)
      {
        assert boards[..i + 1][..i] == boards[..i];
        if boards[i].creatorId == user {
          rows := rows + [boards[i]];
        }
        i := i + 1;
      }
      assert boards[..i] == boards;
    }

    /** The join of boards with the caller's permission rows, read row by row. */
    method ScanSharedBoards(user: int) returns (rows: seq<Board>)
      ensures rows == SharedBoards(boards, permissions, user)
    {
      rows := [];
      var i := 0;
      while i < |boards|
        invariant 0 <= i <= |boards|
        invariant rows == SharedBoards(boards[..i], permissions, user)
      {
        var b := boards[i];
        assert boards[..i + 1][..i] == boards[..i];
        if b.creatorId != user {
          var before := rows;
          var j := 0;
          while j < |permissions|
            invariant 0 <= j <= |permissions|
            invariant rows == before + JoinRows(b, permissions[..j], user)
          {
            assert permissions[..j + 1][..j] == permissions[..j];
            if IsGrant(permissions[j], b.id, user) {
              rows := rows + [b];
            }
            j := j + 1;
          }
          assert permissions[..j] == permissions;
        }
        i := i + 1;
      }
      assert boards[..i] == boards;
    }

    /** GET /boards: own boards, then boards shared with the caller, appended to one list. */
    method GetBoards(user: Option<int>) returns (r: Response<seq<Board>>)
      ensures r == BoardRules.GetBoards(State(), user)
    {
      if user.None? {
        return Err(Unauthorized);
      }
      var own := ScanOwnBoards(user.value);
      var shared := ScanSharedBoards(user.value);
      return Ok(own + shared);
    }

    /** GET /boards/:id: the visibility query, then the board's elements row by row. */
    method GetBoard(boardId: Option<int>, user: Option<int>) returns (r: Response<BoardPage>)
      ensures r == BoardRules.GetBoard(State(), boardId, user)
    {
      if boardId.None? {
        return Err(BadRequest);
      }
      if user.None? {
        return Err(Unauthorized);
      }
      var id := boardId.value;
      var board := FindBoard(boards, id);
      if board.None? || !CanView(board.value, permissions, user.value) {
        return Err(NotFound);
      }
      var result: seq<BoardElement> := [];
      var i := 0;
      while i < |elements|
        invariant 0 <= i <= |elements|
        invariant result == ElementsOf(elements[..i], id)
      {
        assert elements[..i + 1][..i] == elements[..i];
        if elements[i].boardId == id {
          result := result + [elements[i]];
        }
        i := i + 1;
      }
      assert elements[..i] == elements;
      return Ok(BoardPage(board.value, result));
    }

    method UpdateBoard(boardId: Option<int>, body: Json<BoardFields>, user: Option<int>, now: Time) returns (r: Response<()>)
      requires Valid()
      modifies this
      ensures Valid()
      ensures (r, State()) == BoardRules.UpdateBoard(old(State()), boardId, body, user, now)
    {
      if boardId.None? {
        return Err(BadRequest);
      }
      var req := BindUpdateBoard(body);
      if req.None? {
        return Err(BadRequest);
      }
      if user.None? {
        return Err(Unauthorized);
      }
      var check := CheckEdit(boardId.value, user.value);
      if check.Fail? {
        return Err(check.status);
      }
      SetBoardFieldsKeeps(State(), boardId.value, req.value, now);
      boards := SetBoardFields(boards, boardId.value, req.value, now);
      return Ok(());
    }

    /** DELETE /boards/:id: the three deletes run on a transaction's copy of the tables, which only COMMIT publishes. */
    method DeleteBoard(boardId: Option<int>, user: Option<int>, fault: TxFault) returns (r: Response<()>)
      requires Valid()
      modifies this
      ensures Valid()
      ensures (r, State()) == BoardRules.DeleteBoard(old(State()), boardId, user, fault)
    {
      if boardId.None? {
        return Err(BadRequest);
      }
      if user.None? {
        return Err(Unauthorized);
      }
      var id := boardId.value;
      var board := FindBoard(boards, id);
      if board.None? {
        return Err(NotFound);
      }
      if board.value.creatorId != user.value {
        return Err(Forbidden);
      }
      if fault == FailBegin {
        return Err(InternalError);
      }
      var txElements := DeleteElementsOf(elements, id);
      if fault == FailDeleteElements {
        return Err(InternalError);
      }
      var txPermissions := DeletePermissionsOf(permissions, id);
      if fault == FailDeletePermissions {
        return Err(InternalError);
      }
      var txBoards := DeleteBoardRow(boards, id);
      if fault == FailDeleteBoard || fault == FailCommit {
        return Err(InternalError);
      }
      ghost var t := State();
      assert BoardRules.DeleteBoard(t, boardId, user, fault) ==
        (Ok(()), t.(boards := txBoards, permissions := txPermissions, elements := txElements));
      elements, permissions, boards := txElements, txPermissions, txBoards;
      r := Ok(());
    }

    method CreateBoardElement(boardId: Option<int>, body: Json<ElementFields>, user: Option<int>, now: Time)
      returns (r: Response<int>)
      requires Valid()
      modifies this
      ensures Valid()
      ensures (r, State()) == BoardRules.CreateBoardElement(old(State()), boardId, body, user, now)
    {
      if boardId.None? {
        return Err(BadRequest);
      }
      var req := BindCreateElement(body);
      if req.None? {
        return Err(BadRequest);
      }
      if user.None? {
        return Err(Unauthorized);
      }
      var check := CheckEdit(boardId.value, user.value);
      if check.Fail? {
        return Err(check.status);
      }
      var id := nextElementId;
      var q := req.value;
      elements := elements + [BoardElement(id, boardId.value, q.kind, q.content, q.positionX, q.positionY, q.width, q.height, now, now)];
      nextElementId := nextElementId + 1;
      return Ok(id);
    }

    method UpdateBoardElement(boardId: Option<int>, elementId: Option<int>, body: Json<ElementFields>,
                              user: Option<int>, now: Time) returns (r: Response<()>)
      requires Valid()
      modifies this
      ensures Valid()
      ensures (r, State()) == BoardRules.UpdateBoardElement(old(State()), boardId, elementId, body, user, now)
    {
      if boardId.None? || elementId.None? {
        return Err(BadRequest);
      }
      var req := BindUpdateElement(body);
      if req.None? {
        return Err(BadRequest);
      }
      if user.None? {
        return Err(Unauthorized);
      }
      var check := CheckEdit(boardId.value, user.value);
      if check.Fail? {
        return Err(check.status);
      }
      var count := CountElement(elements, elementId.value, boardId.value);
      if count == 0 {
        return Err(NotFound);
      }
      ghost var t := State();
      r := Ok(());
      assert BoardRules.UpdateBoardElement(t, boardId, elementId, body, user, now).1 ==
        t.(elements := SetElementFields(elements, elementId.value, boardId.value, req.value, now));
      elements := SetElementFields(elements, elementId.value, boardId.value, req.value, now);
    }

    method DeleteBoardElement(boardId: Option<int>, elementId: Option<int>, user: Option<int>) returns (r: Response<()>)
      requires Valid()
      modifies this
      ensures Valid()
      ensures (r, State()) == BoardRules.DeleteBoardElement(old(State()), boardId, elementId, user)
    {
      if boardId.None? || elementId.None? {
        return Err(BadRequest);
      }
      if user.None? {
        return Err(Unauthorized);
      }
      var check := CheckEdit(boardId.value, user.value);
      if check.Fail? {
        return Err(check.status);
      }
      var count := CountElement(elements, elementId.value, boardId.value);
      if count == 0 {
        return Err(NotFound);
      }
      elements := DeleteElementRow(elements, elementId.value, boardId.value);
      return Ok(());
    }
  }
}
