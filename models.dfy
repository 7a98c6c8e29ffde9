/** An optional value: the JSON key that may be absent, the row a query may not find. */
module Optional {
  datatype Option<+T> = None | Some(value: T) {
    /** The value, or `default` when there is none. */
    function GetOr(default: T): T {
      match this
      case Some(v) => v
      case None => default
    }
  }
}

/**
 * The records of the whiteboard backend (models/board.go) and the binding step that turns a
 * decoded JSON body into a request record.
 */
module Models {
  import opened Optional

  /** An instant, as read from the server clock; later instants are larger. */
  type Time = int

  /** A row of `boards`. */
  datatype Board = Board(
    id: int,
    title: string,
    description: string,
    creatorId: int,
    isPublic: bool,
    createdAt: Time,
    updatedAt: Time)

  /** A row of `board_elements`; `kind` is the JSON key "type". Position and size are plain signed integers. */
  datatype BoardElement = BoardElement(
    id: int,
    boardId: int,
    kind: string,
    content: string,
    positionX: int,
    positionY: int,
    width: int,
    height: int,
    createdAt: Time,
    updatedAt: Time)

  /** A row of `board_permissions`: the only columns any handler reads. */
  datatype BoardPermission = BoardPermission(boardId: int, userId: int, canEdit: bool)

  datatype CreateBoardRequest = CreateBoardRequest(title: string, description: string, isPublic: bool)

  datatype UpdateBoardRequest = UpdateBoardRequest(title: string, description: string, isPublic: bool)

  datatype CreateBoardElementRequest = CreateBoardElementRequest(
    kind: string, content: string, positionX: int, positionY: int, width: int, height: int)

  datatype UpdateBoardElementRequest = UpdateBoardElementRequest(
    kind: string, content: string, positionX: int, positionY: int, width: int, height: int)

  /**
   * A request body as the JSON decoder sees it: either it could not be decoded into the
   * record (bad syntax, a value of the wrong type), or it gives each key a value or leaves
   * it out (an absent key and a `null` are the same here).
   */
  datatype Json<T> = Malformed | Parsed(fields: T)

  /** The keys of a board body: "title", "description", "is_public". */
  datatype BoardFields = BoardFields(title: Option<string>, description: Option<string>, isPublic: Option<bool>)

  /** The keys of an element body: "type", "content", "position_x", "position_y", "width", "height". */
  datatype ElementFields = ElementFields(
    kind: Option<string>, content: Option<string>,
    positionX: Option<int>, positionY: Option<int>, width: Option<int>, height: Option<int>)

  /** A `required` string is one that is present and not the zero value "". */
  predicate RequiredString(s: Option<string>) {
    s.Some? && s.value != ""
  }

  /**
   * Binding a create-board body: `Title` is tagged `binding:"required"`, so a missing or empty
   * title is rejected; the other keys take their zero value when omitted.
   */
  function BindCreateBoard(body: Json<BoardFields>): (r: Option<CreateBoardRequest>)
    ensures r.None? <==> body.Malformed? || !RequiredString(body.fields.title)
    ensures r.Some? ==> r.value.title != "" && Some(r.value.title) == body.fields.title
    ensures r.Some? && body.fields.description.Some? ==> r.value.description == body.fields.description.value
    ensures r.Some? && body.fields.description.None? ==> r.value.description == ""
    ensures r.Some? && body.fields.isPublic.Some? ==> r.value.isPublic == body.fields.isPublic.value
    ensures r.Some? && body.fields.isPublic.None? ==> !r.value.isPublic
  {
    match body
    case Malformed => None
    case Parsed(f) =>
      if RequiredString(f.title) then
        Some(CreateBoardRequest(f.title.value, f.description.GetOr(""), f.isPublic.GetOr(false)))
      else None
  }

  /**
   * Binding an update-board body: no key is required, so every decodable body binds, and an
   * omitted key becomes its zero value (there is no partial update).
   */
  function BindUpdateBoard(body: Json<BoardFields>): (r: Option<UpdateBoardRequest>)
    ensures r.None? <==> body.Malformed?
    ensures r.Some? && body.fields.title.Some? ==> r.value.title == body.fields.title.value
    ensures r.Some? && body.fields.title.None? ==> r.value.title == ""
    ensures r.Some? && body.fields.description.Some? ==> r.value.description == body.fields.description.value
    ensures r.Some? && body.fields.description.None? ==> r.value.description == ""
    ensures r.Some? && body.fields.isPublic.Some? ==> r.value.isPublic == body.fields.isPublic.value
    ensures r.Some? && body.fields.isPublic.None? ==> !r.value.isPublic
  {
    match body
    case Malformed => None
    case Parsed(f) =>
      Some(UpdateBoardRequest(f.title.GetOr(""), f.description.GetOr(""), f.isPublic.GetOr(false)))
  }

  /** Binding a create-element body: `Type` is `binding:"required"`; numbers default to 0 and are not range-checked. */
  function BindCreateElement(body: Json<ElementFields>): (r: Option<CreateBoardElementRequest>)
    ensures r.None? <==> body.Malformed? || !RequiredString(body.fields.kind)
    ensures r.Some? ==> r.value.kind != "" && Some(r.value.kind) == body.fields.kind
    ensures r.Some? && body.fields.content.Some? ==> r.value.content == body.fields.content.value
    ensures r.Some? && body.fields.content.None? ==> r.value.content == ""
    ensures r.Some? && body.fields.positionX.Some? ==> r.value.positionX == body.fields.positionX.value
    ensures r.Some? && body.fields.positionX.None? ==> r.value.positionX == 0
    ensures r.Some? && body.fields.positionY.Some? ==> r.value.positionY == body.fields.positionY.value
    ensures r.Some? && body.fields.positionY.None? ==> r.value.positionY == 0
    ensures r.Some? && body.fields.width.Some? ==> r.value.width == body.fields.width.value
    ensures r.Some? && body.fields.width.None? ==> r.value.width == 0
    ensures r.Some? && body.fields.height.Some? ==> r.value.height == body.fields.height.value
    ensures r.Some? && body.fields.height.None? ==> r.value.height == 0
  {
    match body
    case Malformed => None
    case Parsed(f) =>
      if RequiredString(f.kind) then
        Some(CreateBoardElementRequest(f.kind.value, f.content.GetOr(""),
          f.positionX.GetOr(0), f.positionY.GetOr(0), f.width.GetOr(0), f.height.GetOr(0)))
      else None
  }

  /** Binding an update-element body: nothing is required; omitted keys become "" or 0. */
  function BindUpdateElement(body: Json<ElementFields>): (r: Option<UpdateBoardElementRequest>)
    ensures r.None? <==> body.Malformed?
    ensures r.Some? && body.fields.kind.Some? ==> r.value.kind == body.fields.kind.value
    ensures r.Some? && body.fields.kind.None? ==> r.value.kind == ""
    ensures r.Some? && body.fields.content.Some? ==> r.value.content == body.fields.content.value
    ensures r.Some? && body.fields.content.None? ==> r.value.content == ""
    ensures r.Some? && body.fields.positionX.Some? ==> r.value.positionX == body.fields.positionX.value
    ensures r.Some? && body.fields.positionX.None? ==> r.value.positionX == 0
    ensures r.Some? && body.fields.positionY.Some? ==> r.value.positionY == body.fields.positionY.value
    ensures r.Some? && body.fields.positionY.None? ==> r.value.positionY == 0
    ensures r.Some? && body.fields.width.Some? ==> r.value.width == body.fields.width.value
    ensures r.Some? && body.fields.width.None? ==> r.value.width == 0
    ensures r.Some? && body.fields.height.Some? ==> r.value.height == body.fields.height.value
    ensures r.Some? && body.fields.height.None? ==> r.value.height == 0
  {
    match body
    case Malformed => None
    case Parsed(f) =>
      Some(UpdateBoardElementRequest(f.kind.GetOr(""), f.content.GetOr(""),
        f.positionX.GetOr(0), f.positionY.GetOr(0), f.width.GetOr(0), f.height.GetOr(0)))
  }

  /** The body a client sends for an update-board request, with every key present. */
  function BoardBodyOf(req: UpdateBoardRequest): BoardFields {
    BoardFields(Some(req.title), Some(req.description), Some(req.isPublic))
  }

  /** The body a client sends for an element request, with every key present. */
  function ElementBodyOf(kind: string, content: string, x: int, y: int, w: int, h: int): ElementFields {
    ElementFields(Some(kind), Some(content), Some(x), Some(y), Some(w), Some(h))
  }

  /** A full create-board body binds to exactly its values iff its title is not empty. */
  lemma CreateBoardRoundTrip(title: string, description: string, isPublic: bool)
    ensures BindCreateBoard(Parsed(BoardFields(Some(title), Some(description), Some(isPublic)))) ==
      if title == "" then None else Some(CreateBoardRequest(title, description, isPublic))
  {
  }

  /** Sending every key of an update-board request and binding it gives the request back. */
  lemma UpdateBoardRoundTrip(req: UpdateBoardRequest)
    ensures BindUpdateBoard(Parsed(BoardBodyOf(req))) == Some(req)
  {
  }

  /** A full create-element body binds to exactly its values iff its type is not empty; any signed size is accepted. */
  lemma CreateElementRoundTrip(kind: string, content: string, x: int, y: int, w: int, h: int)
    ensures BindCreateElement(Parsed(ElementBodyOf(kind, content, x, y, w, h))) ==
      if kind == "" then None else Some(CreateBoardElementRequest(kind, content, x, y, w, h))
  {
  }

  /** Sending every key of an update-element request and binding it gives the request back. */
  lemma UpdateElementRoundTrip(req: UpdateBoardElementRequest)
    ensures BindUpdateElement(Parsed(ElementBodyOf(req.kind, req.content, req.positionX, req.positionY, req.width, req.height))) == Some(req)
  {
  }

  /** An empty update body resets every field to its zero value. */
  lemma EmptyUpdateResets()
    ensures BindUpdateBoard(Parsed(BoardFields(None, None, None))) == Some(UpdateBoardRequest("", "", false))
    ensures BindUpdateElement(Parsed(ElementFields(None, None, None, None, None, None))) ==
      Some(UpdateBoardElementRequest("", "", 0, 0, 0, 0))
  {
  }
}
