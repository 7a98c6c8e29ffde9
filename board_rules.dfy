/**
 * The board handlers of handlers/board.go as functions from the three tables (and the
 * request) to a response and the new tables. Tables are sequences of rows in storage order;
 * the two `serial` columns are the counters `nextBoardId` and `nextElementId`.
 */
module BoardRules {
  import opened Optional
  import opened Models
  import opened Access

  /** The error responses: 400, 401, 404, 403 and, for a failed delete transaction only, 500. */
  datatype Status = BadRequest | Unauthorized | NotFound | Forbidden | InternalError

  /** A handler's response: `Ok` is the 200 or 201 reply with its payload. */
  datatype Response<T> = Ok(value: T) | Err(status: Status)

  /** The outcome of the existence-and-edit-rights check that four handlers share. */
  datatype Check = Pass | Fail(status: Status)

  /** The GetBoard reply: the board and its elements. */
  datatype BoardPage = BoardPage(board: Board, elements: seq<BoardElement>)

  /** Where the delete transaction fails, if it does: at BEGIN, at one of the three DELETEs, or at COMMIT. */
  datatype TxFault = NoFault | FailBegin | FailDeleteElements | FailDeletePermissions | FailDeleteBoard | FailCommit

  datatype Tables = Tables(
    boards: seq<Board>,
    permissions: seq<BoardPermission>,
    elements: seq<BoardElement>,
    nextBoardId: int,
    nextElementId: int)

  predicate BoardExists(boards: seq<Board>, id: int) {
    exists b <- boards :: b.id == id
  }

  /** An element with this id on this board: what `SELECT COUNT(*) ... WHERE id = $1 AND board_id = $2` tests. */
  predicate ElementOnBoard(elements: seq<BoardElement>, elementId: int, boardId: int) {
    exists e <- elements :: e.id == elementId && e.boardId == boardId
  }

  /** `boards.id` is a primary key. */
  ghost predicate DistinctBoardIds(boards: seq<Board>) {
    forall i, j :: 0 <= i < j < |boards| ==> boards[i].id != boards[j].id
  }

  /** `board_elements.id` is a primary key. */
  ghost predicate DistinctElementIds(elements: seq<BoardElement>) {
    forall i, j :: 0 <= i < j < |elements| ==> elements[i].id != elements[j].id
  }

  /** The database's integrity: primary keys unique and below their serial counters, foreign keys resolve. */
  ghost predicate Valid(t: Tables) {
    && DistinctBoardIds(t.boards)
    && (forall b <- t.boards :: b.id < t.nextBoardId)
    && DistinctElementIds(t.elements)
    && (forall e <- t.elements :: e.id < t.nextElementId && BoardExists(t.boards, e.boardId))
    && (forall p <- t.permissions :: BoardExists(t.boards, p.boardId))
  }

  /** No board's creator or creation time differs between `t` and `t'`. */
  ghost predicate CreatorsKept(t: Tables, t': Tables) {
    forall b <- t.boards, b' <- t'.boards :: b.id == b'.id ==>
      b'.creatorId == b.creatorId && b'.createdAt == b.createdAt
  }

  // ---------------------------------------------------------------- queries

  /** `SELECT ... FROM boards WHERE id = $1`, read with QueryRow: the first row with that id. */
  function FindBoard(boards: seq<Board>, id: int): (r: Option<Board>)
    ensures r.None? <==> !BoardExists(boards, id)
    ensures r.Some? ==> r.value in boards && r.value.id == id
  {
    if boards == [] then None
    else if boards[0].id == id then Some(boards[0])
    else FindBoard(boards[1..], id)
  }

  /** `SELECT ... FROM boards WHERE creator_id = $1`, in storage order. */
  function OwnBoards(boards: seq<Board>, user: int): (r: seq<Board>)
    ensures forall b :: b in r <==> b in boards && b.creatorId == user
    decreases |boards|
  {
    if boards == [] then []
    else
      var n := |boards| - 1;
      assert boards == boards[..n] + [boards[n]];
      OwnBoards(boards[..n], user) + (if boards[n].creatorId == user then [boards[n]] else [])
  }

  /** The rows the join `boards b JOIN board_permissions bp ON b.id = bp.board_id WHERE bp.user_id = $1` yields for one board: one per grant row. */
  function JoinRows(board: Board, perms: seq<BoardPermission>, user: int): (r: seq<Board>)
    ensures forall b :: b in r <==> b == board && HasGrant(perms, board.id, user)
    decreases |perms|
  {
    if perms == [] then []
    else
      var n := |perms| - 1;
      assert perms == perms[..n] + [perms[n]];
      JoinRows(board, perms[..n], user) + (if IsGrant(perms[n], board.id, user) then [board] else [])
  }

  /** The second GetBoards query: shared boards of other creators, board by board, one copy per grant row. */
  function SharedBoards(boards: seq<Board>, perms: seq<BoardPermission>, user: int): (r: seq<Board>)
    ensures forall b :: b in r <==> b in boards && b.creatorId != user && HasGrant(perms, b.id, user)
    decreases |boards|
  {
    if boards == [] then []
    else
      var n := |boards| - 1;
      assert boards == boards[..n] + [boards[n]];
      SharedBoards(boards[..n], perms, user) +
        (if boards[n].creatorId != user then JoinRows(boards[n], perms, user) else [])
  }

  /** The GetBoards listing: own boards first, then boards shared with the caller. */
  function ListBoards(t: Tables, user: int): (r: seq<Board>)
    ensures forall b :: b in r <==> b in t.boards && (b.creatorId == user || HasGrant(t.permissions, b.id, user))
  {
    OwnBoards(t.boards, user) + SharedBoards(t.boards, t.permissions, user)
  }

  /** `SELECT ... FROM board_elements WHERE board_id = $1`, in storage order. */
  function ElementsOf(elements: seq<BoardElement>, boardId: int): (r: seq<BoardElement>)
    ensures forall e :: e in r <==> e in elements && e.boardId == boardId
    decreases |elements|
  {
    if elements == [] then []
    else
      var n := |elements| - 1;
      assert elements == elements[..n] + [elements[n]];
      ElementsOf(elements[..n], boardId) + (if elements[n].boardId == boardId then [elements[n]] else [])
  }

  /** `SELECT COUNT(*) FROM board_elements WHERE id = $1 AND board_id = $2`. */
  function CountElement(elements: seq<BoardElement>, elementId: int, boardId: int): (n: nat)
    ensures n <= |elements|
    ensures n == 0 <==> !ElementOnBoard(elements, elementId, boardId)
  {
    if elements == [] then 0
    else
      (if elements[0].id == elementId && elements[0].boardId == boardId then 1 else 0)
        + CountElement(elements[1..], elementId, boardId)
  }

  // ---------------------------------------------------------------- row updates

  /** One row after `UPDATE boards SET title, description, is_public, updated_at`. */
  function UpdatedBoard(b: Board, req: UpdateBoardRequest, now: Time): (b': Board)
    ensures b'.id == b.id && b'.creatorId == b.creatorId && b'.createdAt == b.createdAt
    ensures b'.title == req.title && b'.description == req.description && b'.isPublic == req.isPublic
    ensures b'.updatedAt == now
  {
    b.(title := req.title, description := req.description, isPublic := req.isPublic, updatedAt := now)
  }

  /** `UPDATE boards ... WHERE id = $5` over the whole table. */
  function SetBoardFields(boards: seq<Board>, id: int, req: UpdateBoardRequest, now: Time): (r: seq<Board>)
    ensures SameBoardKeys(boards, r)
    ensures forall i :: 0 <= i < |boards| && boards[i].id != id ==> r[i] == boards[i]
    ensures forall i :: 0 <= i < |boards| && boards[i].id == id ==>
      r[i].title == req.title && r[i].description == req.description && r[i].isPublic == req.isPublic
      && r[i].updatedAt == now
  {
    seq(|boards|, i requires 0 <= i < |boards| =>
      if boards[i].id == id then UpdatedBoard(boards[i], req, now) else boards[i])
  }

  /** One row after `UPDATE board_elements SET type, content, position_x, position_y, width, height, updated_at`. */
  function UpdatedElement(e: BoardElement, req: UpdateBoardElementRequest, now: Time): (e': BoardElement)
    ensures e'.id == e.id && e'.boardId == e.boardId && e'.createdAt == e.createdAt
    ensures e'.kind == req.kind && e'.content == req.content
    ensures e'.positionX == req.positionX && e'.positionY == req.positionY
    ensures e'.width == req.width && e'.height == req.height && e'.updatedAt == now
  {
    e.(kind := req.kind, content := req.content, positionX := req.positionX, positionY := req.positionY,
       width := req.width, height := req.height, updatedAt := now)
  }

  /** `UPDATE board_elements ... WHERE id = $8 AND board_id = $9` over the whole table. */
  function SetElementFields(elements: seq<BoardElement>, elementId: int, boardId: int,
                            req: UpdateBoardElementRequest, now: Time): (r: seq<BoardElement>)
    ensures |r| == |elements|
    ensures forall i :: 0 <= i < |elements| ==>
      r[i].id == elements[i].id && r[i].boardId == elements[i].boardId && r[i].createdAt == elements[i].createdAt
    ensures forall i :: 0 <= i < |elements| && !(elements[i].id == elementId && elements[i].boardId == boardId) ==>
      r[i] == elements[i]
    ensures forall i :: 0 <= i < |elements| && elements[i].id == elementId && elements[i].boardId == boardId ==>
      r[i] == UpdatedElement(elements[i], req, now)
  {
    seq(|elements|, i requires 0 <= i < |elements| =>
      if elements[i].id == elementId && elements[i].boardId == boardId
      then UpdatedElement(elements[i], req, now) else elements[i])
  }

  /** `DELETE FROM board_elements WHERE board_id = $1`. */
  function DeleteElementsOf(elements: seq<BoardElement>, boardId: int): (r: seq<BoardElement>)
    ensures forall e :: e in r <==> e in elements && e.boardId != boardId
    ensures DistinctElementIds(elements) ==> DistinctElementIds(r)
    decreases |elements|
  {
    if elements == [] then []
    else
      var n := |elements| - 1;
      assert elements == elements[..n] + [elements[n]];
      DeleteElementsOf(elements[..n], boardId) + (if elements[n].boardId != boardId then [elements[n]] else [])
  }

  /** `DELETE FROM board_permissions WHERE board_id = $1`. */
  function DeletePermissionsOf(perms: seq<BoardPermission>, boardId: int): (r: seq<BoardPermission>)
    ensures forall p :: p in r <==> p in perms && p.boardId != boardId
    decreases |perms|
  {
    if perms == [] then []
    else
      var n := |perms| - 1;
      assert perms == perms[..n] + [perms[n]];
      DeletePermissionsOf(perms[..n], boardId) + (if perms[n].boardId != boardId then [perms[n]] else [])
  }

  /** `DELETE FROM boards WHERE id = $1`. */
  function DeleteBoardRow(boards: seq<Board>, id: int): (r: seq<Board>)
    ensures forall b :: b in r <==> b in boards && b.id != id
    ensures DistinctBoardIds(boards) ==> DistinctBoardIds(r)
    decreases |boards|
  {
    if boards == [] then []
    else
      var n := |boards| - 1;
      assert boards == boards[..n] + [boards[n]];
      DeleteBoardRow(boards[..n], id) + (if boards[n].id != id then [boards[n]] else [])
  }

  /** `DELETE FROM board_elements WHERE id = $1 AND board_id = $2`. */
  function DeleteElementRow(elements: seq<BoardElement>, elementId: int, boardId: int): (r: seq<BoardElement>)
    ensures forall e :: e in r <==> e in elements && !(e.id == elementId && e.boardId == boardId)
    ensures DistinctElementIds(elements) ==> DistinctElementIds(r)
    decreases |elements|
  {
    if elements == [] then []
    else
      var n := |elements| - 1;
      assert elements == elements[..n] + [elements[n]];
      DeleteElementRow(elements[..n], elementId, boardId) +
        (if elements[n].id == elementId && elements[n].boardId == boardId then [] else [elements[n]])
  }

  /** Row by row, `boards'` has the ids, creators and creation times of `boards`. */
  ghost predicate SameBoardKeys(boards: seq<Board>, boards': seq<Board>) {
    && |boards'| == |boards|
    && forall i :: 0 <= i < |boards| ==>
         boards'[i].id == boards[i].id && boards'[i].creatorId == boards[i].creatorId
         && boards'[i].createdAt == boards[i].createdAt
  }

  /** Replacing the board rows by rows with the same keys keeps the tables valid and every creator in place. */
  lemma SameBoardKeysKeep(t: Tables, boards': seq<Board>)
    requires Valid(t) && SameBoardKeys(t.boards, boards')
    ensures Valid(t.(boards := boards')) && CreatorsKept(t, t.(boards := boards'))
  {
    forall id | BoardExists(t.boards, id) ensures BoardExists(boards', id) {
      var b :| b in t.boards && b.id == id;
      var i :| 0 <= i < |t.boards| && t.boards[i] == b;
      assert boards'[i] in boards';
    }
    forall b' | b' in boards' ensures b'.id < t.nextBoardId {
      var i :| 0 <= i < |boards'| && boards'[i] == b';
      assert t.boards[i] in t.boards;
    }
    forall b, b' | b in t.boards && b' in boards' && b.id == b'.id
      ensures b'.creatorId == b.creatorId && b'.createdAt == b.createdAt
    {
      var i :| 0 <= i < |t.boards| && t.boards[i] == b;
      var j :| 0 <= j < |boards'| && boards'[j] == b';
      assert t.boards[j].id == b.id;
      assert i == j;
    }
  }

  /** Overwriting board rows keeps the tables valid and every creator in place. */
  lemma SetBoardFieldsKeeps(t: Tables, id: int, req: UpdateBoardRequest, now: Time)
    requires Valid(t)
    ensures var t' := t.(boards := SetBoardFields(t.boards, id, req, now));
      Valid(t') && CreatorsKept(t, t')
  {
    SameBoardKeysKeep(t, SetBoardFields(t.boards, id, req, now));
  }

  // ---------------------------------------------------------------- the shared edit check

  /**
   * The block repeated in UpdateBoard and the three element handlers: 404 when no board has
   * the id, otherwise 403 unless the caller is the creator or the grant row read says `can_edit`.
   */
  function EditCheck(t: Tables, boardId: int, user: int): (c: Check)
    ensures c == Fail(NotFound) <==> !BoardExists(t.boards, boardId)
    ensures c.Fail? ==> c.status == NotFound || c.status == Forbidden
    ensures c == Pass ==> exists b <- t.boards :: b.id == boardId && CanEdit(b, t.permissions, user)
  {
    match FindBoard(t.boards, boardId)
    case None => Fail(NotFound)
    case Some(b) =>
      if b.creatorId != user && FirstGrant(t.permissions, boardId, user) != Some(true)
      then Fail(Forbidden) else Pass
  }

  // ---------------------------------------------------------------- handlers

  /** POST /boards; one instant `now` stands for both clock reads of the INSERT. */
  function CreateBoard(t: Tables, body: Json<BoardFields>, user: Option<int>, now: Time): (out: (Response<int>, Tables))
    requires Valid(t)
    ensures Valid(out.1) && CreatorsKept(t, out.1)
    ensures out.0 == Err(BadRequest) <==> BindCreateBoard(body).None?
    ensures out.0 == Err(Unauthorized) <==> BindCreateBoard(body).Some? && user.None?
    ensures out.0.Ok? <==> BindCreateBoard(body).Some? && user.Some?
    ensures out.0.Err? ==> out.1 == t
    ensures out.0.Ok? ==>
      var req := BindCreateBoard(body).value;
      && !BoardExists(t.boards, out.0.value)
      && out.1.boards == t.boards + [Board(out.0.value, req.title, req.description, user.value, req.isPublic, now, now)]
      && out.1.permissions == t.permissions && out.1.elements == t.elements
  {
    match BindCreateBoard(body)
    case None => (Err(BadRequest), t)
    case Some(req) =>
      if user.None? then (Err(Unauthorized), t)
      else
        var id := t.nextBoardId;
        var board := Board(id, req.title, req.description, user.value, req.isPublic, now, now);
        (Ok(id), t.(boards := t.boards + [board], nextBoardId := id + 1))
  }

  /** GET /boards. */
  function GetBoards(t: Tables, user: Option<int>): (r: Response<seq<Board>>)
    ensures r.Err? <==> user.None?
    ensures r.Err? ==> r.status == Unauthorized
    ensures r.Ok? ==> forall b :: b in r.value <==>
      b in t.boards && (b.creatorId == user.value || HasGrant(t.permissions, b.id, user.value))
  {
    if user.None? then Err(Unauthorized) else Ok(ListBoards(t, user.value))
  }

  /** GET /boards/:id. */
  function GetBoard(t: Tables, boardId: Option<int>, user: Option<int>): (r: Response<BoardPage>)
    ensures r == Err(BadRequest) <==> boardId.None?
    ensures r == Err(Unauthorized) <==> boardId.Some? && user.None?
    ensures r.Err? ==> r.status in {BadRequest, Unauthorized, NotFound}
    ensures r.Ok? ==>
      && r.value.board in t.boards && r.value.board.id == boardId.value
      && CanView(r.value.board, t.permissions, user.value)
      && (forall e :: e in r.value.elements <==> e in t.elements && e.boardId == boardId.value)
  {
    if boardId.None? then Err(BadRequest)
    else if user.None? then Err(Unauthorized)
    else
      match FindBoard(t.boards, boardId.value)
      case None => Err(NotFound)
      case Some(b) =>
        if CanView(b, t.permissions, user.value)
        then Ok(BoardPage(b, ElementsOf(t.elements, boardId.value)))
        else Err(NotFound)
  }

  /** PUT /boards/:id. */
  function UpdateBoard(t: Tables, boardId: Option<int>, body: Json<BoardFields>, user: Option<int>, now: Time)
    : (out: (Response<()>, Tables))
    requires Valid(t)
    ensures Valid(out.1) && CreatorsKept(t, out.1)
    ensures out.0.Err? ==> out.1 == t
    ensures out.0 == Err(BadRequest) <==> boardId.None? || body.Malformed?
    ensures out.0 == Err(Unauthorized) <==> boardId.Some? && body.Parsed? && user.None?
    ensures boardId.Some? && body.Parsed? && user.Some? ==>
      match EditCheck(t, boardId.value, user.value)
      case Pass => out.0.Ok?
      case Fail(s) => out.0 == Err(s)
    ensures out.0.Ok? ==>
      && out.1 == t.(boards := SetBoardFields(t.boards, boardId.value, BindUpdateBoard(body).value, now))
      && |out.1.boards| == |t.boards|
  {
    if boardId.None? then (Err(BadRequest), t)
    else match BindUpdateBoard(body)
      case None => (Err(BadRequest), t)
      case Some(req) =>
        if user.None? then (Err(Unauthorized), t)
        else match EditCheck(t, boardId.value, user.value)
          case Fail(s) => (Err(s), t)
          case Pass =>
            SetBoardFieldsKeeps(t, boardId.value, req, now);
            var t' := t.(boards := SetBoardFields(t.boards, boardId.value, req, now));
            (Ok(()), t')
  }

  /** DELETE /boards/:id: creator only, then three deletes in one transaction. */
  function DeleteBoard(t: Tables, boardId: Option<int>, user: Option<int>, fault: TxFault): (out: (Response<()>, Tables))
    requires Valid(t)
    ensures Valid(out.1) && CreatorsKept(t, out.1)
    ensures out.0.Err? ==> out.1 == t
    ensures out.0 == Err(BadRequest) <==> boardId.None?
    ensures out.0 == Err(Unauthorized) <==> boardId.Some? && user.None?
    ensures out.0 == Err(NotFound) <==> boardId.Some? && user.Some? && !BoardExists(t.boards, boardId.value)
    ensures out.0 == Err(Forbidden) <==> (boardId.Some? && user.Some? &&
      exists b <- t.boards :: b.id == boardId.value && b.creatorId != user.value)
    ensures out.0 == Err(InternalError) <==> (boardId.Some? && user.Some? && fault != NoFault &&
      exists b <- t.boards :: b.id == boardId.value && b.creatorId == user.value)
    ensures out.0.Ok? ==> out.1 == t.(
      boards := DeleteBoardRow(t.boards, boardId.value),
      permissions := DeletePermissionsOf(t.permissions, boardId.value),
      elements := DeleteElementsOf(t.elements, boardId.value))
  {
    if boardId.None? then (Err(BadRequest), t)
    else if user.None? then (Err(Unauthorized), t)
    else match FindBoard(t.boards, boardId.value)
      case None => (Err(NotFound), t)
      case Some(b) =>
        if b.creatorId != user.value then (Err(Forbidden), t)
        else if fault != NoFault then (Err(InternalError), t)
        else
          var id := boardId.value;
          (Ok(()), t.(boards := DeleteBoardRow(t.boards, id),
                      permissions := DeletePermissionsOf(t.permissions, id),
                      elements := DeleteElementsOf(t.elements, id)))
  }

  /** POST /boards/:id/elements; one instant `now` stands for both clock reads of the INSERT. */
  function CreateBoardElement(t: Tables, boardId: Option<int>, body: Json<ElementFields>, user: Option<int>, now: Time)
    : (out: (Response<int>, Tables))
    requires Valid(t)
    ensures Valid(out.1) && CreatorsKept(t, out.1)
    ensures out.0.Err? ==> out.1 == t
    ensures out.0 == Err(BadRequest) <==> boardId.None? || BindCreateElement(body).None?
    ensures out.0 == Err(Unauthorized) <==> boardId.Some? && BindCreateElement(body).Some? && user.None?
    ensures boardId.Some? && BindCreateElement(body).Some? && user.Some? ==>
      match EditCheck(t, boardId.value, user.value)
      case Pass => out.0.Ok?
      case Fail(s) => out.0 == Err(s)
    ensures out.0.Ok? ==>
      var req := BindCreateElement(body).value;
      && (forall e <- t.elements :: e.id != out.0.value)
      && out.1.elements == t.elements + [BoardElement(out.0.value, boardId.value, req.kind, req.content,
           req.positionX, req.positionY, req.width, req.height, now, now)]
      && out.1.boards == t.boards && out.1.permissions == t.permissions
  {
    if boardId.None? then (Err(BadRequest), t)
    else match BindCreateElement(body)
      case None => (Err(BadRequest), t)
      case Some(req) =>
        if user.None? then (Err(Unauthorized), t)
        else match EditCheck(t, boardId.value, user.value)
          case Fail(s) => (Err(s), t)
          case Pass =>
            var id := t.nextElementId;
            var e := BoardElement(id, boardId.value, req.kind, req.content,
              req.positionX, req.positionY, req.width, req.height, now, now);
            (Ok(id), t.(elements := t.elements + [e], nextElementId := id + 1))
  }

  /** PUT /boards/:id/elements/:element_id. */
  function UpdateBoardElement(t: Tables, boardId: Option<int>, elementId: Option<int>, body: Json<ElementFields>,
                              user: Option<int>, now: Time): (out: (Response<()>, Tables))
    requires Valid(t)
    ensures Valid(out.1) && CreatorsKept(t, out.1)
    ensures out.0.Err? ==> out.1 == t
    ensures out.0 == Err(BadRequest) <==> boardId.None? || elementId.None? || body.Malformed?
    ensures out.0 == Err(Unauthorized) <==> boardId.Some? && elementId.Some? && body.Parsed? && user.None?
    ensures boardId.Some? && elementId.Some? && body.Parsed? && user.Some? ==>
      match EditCheck(t, boardId.value, user.value)
      case Fail(s) => out.0 == Err(s)
      case Pass => out.0 == if ElementOnBoard(t.elements, elementId.value, boardId.value) then Ok(()) else Err(NotFound)
    ensures out.0.Ok? ==>
      && out.1 == t.(elements := SetElementFields(t.elements, elementId.value, boardId.value, BindUpdateElement(body).value, now))
      && |out.1.elements| == |t.elements|
  {
    if boardId.None? || elementId.None? then (Err(BadRequest), t)
    else match BindUpdateElement(body)
      case None => (Err(BadRequest), t)
      case Some(req) =>
        if user.None? then (Err(Unauthorized), t)
        else match EditCheck(t, boardId.value, user.value)
          case Fail(s) => (Err(s), t)
          case Pass =>
            if CountElement(t.elements, elementId.value, boardId.value) == 0 then (Err(NotFound), t)
            else
              var t' := t.(elements := SetElementFields(t.elements, elementId.value, boardId.value, req, now));
              assert forall e' <- t'.elements :: exists e <- t.elements :: e'.id == e.id && e'.boardId == e.boardId by {
                forall e' | e' in t'.elements ensures exists e <- t.elements :: e'.id == e.id && e'.boardId == e.boardId {
                  var i :| 0 <= i < |t'.elements| && t'.elements[i] == e';
                  assert t.elements[i] in t.elements;
                }
              }
              (Ok(()), t')
  }

  /** DELETE /boards/:id/elements/:element_id. */
  function DeleteBoardElement(t: Tables, boardId: Option<int>, elementId: Option<int>, user: Option<int>)
    : (out: (Response<()>, Tables))
    requires Valid(t)
    ensures Valid(out.1) && CreatorsKept(t, out.1)
    ensures out.0.Err? ==> out.1 == t
    ensures out.0 == Err(BadRequest) <==> boardId.None? || elementId.None?
    ensures out.0 == Err(Unauthorized) <==> boardId.Some? && elementId.Some? && user.None?
    ensures boardId.Some? && elementId.Some? && user.Some? ==>
      match EditCheck(t, boardId.value, user.value)
      case Fail(s) => out.0 == Err(s)
      case Pass => out.0 == if ElementOnBoard(t.elements, elementId.value, boardId.value) then Ok(()) else Err(NotFound)
    ensures out.0.Ok? ==> out.1 == t.(elements := DeleteElementRow(t.elements, elementId.value, boardId.value))
  {
    if boardId.None? || elementId.None? then (Err(BadRequest), t)
    else if user.None? then (Err(Unauthorized), t)
    else match EditCheck(t, boardId.value, user.value)
      case Fail(s) => (Err(s), t)
      case Pass =>
        if CountElement(t.elements, elementId.value, boardId.value) == 0 then (Err(NotFound), t)
        else (Ok(()), t.(elements := DeleteElementRow(t.elements, elementId.value, boardId.value)))
  }
}
