/**
 * What the board handlers promise across calls: who gets which status, what a listing holds,
 * what a delete leaves behind, and that an element reads back as it was written.
 */
module BoardProperties {
  import opened Optional
  import opened Models
  import opened Access
  import opened BoardRules

  /** No value occurs twice. */
  predicate NoRepeats<T(==)>(s: seq<T>) {
    forall i, j :: 0 <= i < j < |s| ==> s[i] != s[j]
  }

  /** A sequence with no member is empty. */
  lemma HeadIsMember<T>(s: seq<T>)
    ensures s == [] || s[0] in s
  {
  }

  /** Two sequences without repeats and without a common value append to one without repeats. */
  lemma NoRepeatsAppend<T>(a: seq<T>, b: seq<T>)
    requires NoRepeats(a) && NoRepeats(b) && forall x <- a :: x !in b
    ensures NoRepeats(a + b)
  {
    var all := a + b;
    forall i, j | 0 <= i < j < |all| ensures all[i] != all[j] {
      if j < |a| {
        assert all[i] == a[i] && all[j] == a[j];
      } else if i >= |a| {
        assert all[i] == b[i - |a|] && all[j] == b[j - |a|];
      } else {
        assert all[i] in a && all[j] in b;
      }
    }
  }

  // ---------------------------------------------------------------- primary keys

  /** With unique board ids the lookup by id finds the one board with that id. */
  lemma FindBoardUnique(boards: seq<Board>, b: Board)
    requires DistinctBoardIds(boards) && b in boards
    ensures FindBoard(boards, b.id) == Some(b)
  {
    var x := FindBoard(boards, b.id).value;
    var i :| 0 <= i < |boards| && boards[i] == b;
    var j :| 0 <= j < |boards| && boards[j] == x;
  }

  /** With unique element ids two rows with the same id are the same row. */
  lemma ElementIdUnique(elements: seq<BoardElement>, e: BoardElement, e': BoardElement)
    requires DistinctElementIds(elements) && e in elements && e' in elements && e.id == e'.id
    ensures e == e'
  {
    var i :| 0 <= i < |elements| && elements[i] == e;
    var j :| 0 <= j < |elements| && elements[j] == e';
  }

  // ---------------------------------------------------------------- access decisions

  /**
   * The edit check: 404 exactly when no board has the id (decided before any permission
   * lookup), 403 exactly when the board exists and the caller may not edit it, pass otherwise.
   */
  lemma EditCheckRule(t: Tables, boardId: int, user: int, b: Board)
    requires Valid(t) && b in t.boards && b.id == boardId
    ensures EditCheck(t, boardId, user) == if CanEdit(b, t.permissions, user) then Pass else Fail(Forbidden)
    ensures b.creatorId == user ==> EditCheck(t, boardId, user) == Pass
  {
    FindBoardUnique(t.boards, b);
  }

  /**
   * GetBoard succeeds exactly for a board the caller may view, and then returns exactly the
   * board's elements; a missing board and a hidden one both give 404.
   */
  lemma GetBoardAccess(t: Tables, boardId: int, user: int)
    requires Valid(t)
    ensures GetBoard(t, Some(boardId), Some(user)).Ok? <==>
      exists b <- t.boards :: b.id == boardId && CanView(b, t.permissions, user)
    ensures GetBoard(t, Some(boardId), Some(user)).Err? ==> GetBoard(t, Some(boardId), Some(user)) == Err(NotFound)
  {
    if b :| b in t.boards && b.id == boardId && CanView(b, t.permissions, user) {
      FindBoardUnique(t.boards, b);
    }
  }

  // ---------------------------------------------------------------- listing

  /** A public board of someone else, without a grant row for the caller, is not listed. */
  lemma PublicBoardNotListed(t: Tables, user: int, b: Board)
    requires b.isPublic && b.creatorId != user && !HasGrant(t.permissions, b.id, user)
    ensures b !in ListBoards(t, user)
  {
  }

  /** Every listed board is the caller's own or shared with the caller; own boards come first. */
  lemma ListBoardsOrder(t: Tables, user: int)
    ensures var own := OwnBoards(t.boards, user);
      && ListBoards(t, user)[..|own|] == own
      && (forall b <- own :: b.creatorId == user)
      && (forall b <- ListBoards(t, user)[|own|..] :: b.creatorId != user && HasGrant(t.permissions, b.id, user))
  {
    var own := OwnBoards(t.boards, user);
    assert ListBoards(t, user)[|own|..] == SharedBoards(t.boards, t.permissions, user);
  }

  lemma {:induction false} OwnBoardsNoRepeats(boards: seq<Board>, user: int)
    requires DistinctBoardIds(boards)
    ensures NoRepeats(OwnBoards(boards, user))
    decreases |boards|
  {
    if boards != [] {
      var n := |boards| - 1;
      OwnBoardsNoRepeats(boards[..n], user);
      var prefix := OwnBoards(boards[..n], user);
      forall b | b in prefix ensures b != boards[n] {
        var i :| 0 <= i < n && boards[..n][i] == b;
        assert boards[i].id != boards[n].id;
      }
    }
  }

  /** With `board_elements.id` a primary key, a board's element query yields no element twice. */
  lemma {:induction false} ElementsOfNoRepeats(elements: seq<BoardElement>, boardId: int)
    requires DistinctElementIds(elements)
    ensures NoRepeats(ElementsOf(elements, boardId))
    decreases |elements|
  {
    if elements != [] {
      var n := |elements| - 1;
      ElementsOfNoRepeats(elements[..n], boardId);
      var prefix := ElementsOf(elements[..n], boardId);
      forall e | e in prefix ensures e != elements[n] {
        var i :| 0 <= i < n && elements[..n][i] == e;
        assert elements[i].id != elements[n].id;
      }
    }
  }

  lemma {:induction false} UniqueGrantsPrefix(perms: seq<BoardPermission>, n: nat)
    requires UniqueGrants(perms) && n <= |perms|
    ensures UniqueGrants(perms[..n])
  {
  }

  /** With unique grants the join gives each board at most one row. */
  lemma {:induction false} JoinRowsAtMostOne(board: Board, perms: seq<BoardPermission>, user: int)
    requires UniqueGrants(perms)
    ensures |JoinRows(board, perms, user)| <= 1
    decreases |perms|
  {
    if perms != [] {
      var n := |perms| - 1;
      UniqueGrantsPrefix(perms, n);
      JoinRowsAtMostOne(board, perms[..n], user);
      if IsGrant(perms[n], board.id, user) {
        forall p | p in perms[..n] ensures !IsGrant(p, board.id, user) {
          var k :| 0 <= k < n && perms[..n][k] == p;
          assert perms[k] == p;
        }
        var prefix := JoinRows(board, perms[..n], user);
        HeadIsMember(prefix);
      }
    }
  }

  lemma {:induction false} SharedBoardsNoRepeats(boards: seq<Board>, perms: seq<BoardPermission>, user: int)
    requires DistinctBoardIds(boards) && UniqueGrants(perms)
    ensures NoRepeats(SharedBoards(boards, perms, user))
    decreases |boards|
  {
    if boards != [] {
      var n := |boards| - 1;
      var prefix := SharedBoards(boards[..n], perms, user);
      var block := if boards[n].creatorId != user then JoinRows(boards[n], perms, user) else [];
      assert SharedBoards(boards, perms, user) == prefix + block;
      assert NoRepeats(prefix) by {
        SharedBoardsNoRepeats(boards[..n], perms, user);
      }
      assert NoRepeats(block) by {
        JoinRowsAtMostOne(boards[n], perms, user);
      }
      assert forall x <- prefix :: x !in block by {
        forall x | x in prefix ensures x.id != boards[n].id {
          var k :| 0 <= k < n && boards[..n][k] == x;
          assert boards[k].id != boards[n].id;
        }
      }
      NoRepeatsAppend(prefix, block);
    }
  }

  /**
   * When no (board, user) pair has two grant rows, GetBoards lists every board at most once
   * (own boards and shared boards never overlap: the join excludes the caller's own boards).
   */
  lemma ListBoardsNoRepeats(t: Tables, user: int)
    requires Valid(t) && UniqueGrants(t.permissions)
    ensures NoRepeats(ListBoards(t, user))
  {
    var own := OwnBoards(t.boards, user);
    var shared := SharedBoards(t.boards, t.permissions, user);
    OwnBoardsNoRepeats(t.boards, user);
    SharedBoardsNoRepeats(t.boards, t.permissions, user);
    NoRepeatsAppend(own, shared);
  }

  /** Two grant rows for the same pair list a shared board twice. */
  lemma DuplicateGrantListedTwice(b: Board, user: int)
    requires b.creatorId != user
    ensures ListBoards(Tables([b], [BoardPermission(b.id, user, true), BoardPermission(b.id, user, false)], [], b.id + 1, 1), user)
      == [b, b]
  {
    var perms := [BoardPermission(b.id, user, true), BoardPermission(b.id, user, false)];
    assert perms[..1] == [perms[0]];
    assert perms[..1][..0] == [];
    assert JoinRows(b, perms[..1], user) == [b];
    assert JoinRows(b, perms, user) == [b, b];
    assert [b][..0] == [];
    assert OwnBoards([b], user) == [];
    assert SharedBoards([b], perms, user) == [b, b];
  }

  // ---------------------------------------------------------------- creation

  /** A board id that no board has owns no element (the foreign key). */
  lemma NoElementsOfMissingBoard(t: Tables, id: int)
    requires Valid(t) && !BoardExists(t.boards, id)
    ensures ElementsOf(t.elements, id) == []
  {
    var es := ElementsOf(t.elements, id);
    assert forall e <- t.elements :: e.boardId != id;
    HeadIsMember(es);
  }

  /** The creator reads a board without elements back as that board and no elements. */
  lemma ReadOwnEmptyBoard(t: Tables, b: Board)
    requires Valid(t) && b in t.boards && ElementsOf(t.elements, b.id) == []
    ensures GetBoard(t, Some(b.id), Some(b.creatorId)) == Ok(BoardPage(b, []))
  {
    FindBoardUnique(t.boards, b);
  }

  /**
   * A board just created by a caller is listed for that caller and reads back, with no
   * elements, under the id the handler returned.
   */
  lemma CreatedBoardOwnedAndEmpty(t: Tables, body: Json<BoardFields>, user: int, now: Time)
    requires Valid(t) && BindCreateBoard(body).Some?
    ensures var out := CreateBoard(t, body, Some(user), now);
      && out.0.Ok?
      && (exists b <- ListBoards(out.1, user) :: b.id == out.0.value && b.creatorId == user)
      && GetBoard(out.1, Some(out.0.value), Some(user)).Ok?
      && GetBoard(out.1, Some(out.0.value), Some(user)).value.elements == []
  {
    var out := CreateBoard(t, body, Some(user), now);
    var id, t' := out.0.value, out.1;
    var b := t'.boards[|t'.boards| - 1];
    assert b.id == id && b.creatorId == user;
    assert b in ListBoards(t', user);
    NoElementsOfMissingBoard(t, id);
    ReadOwnEmptyBoard(t', b);
  }

  // ---------------------------------------------------------------- updating a board

  /**
   * A successful UpdateBoard overwrites title, description and visibility with the request's
   * values (zero values for omitted keys) and stamps `now`; id, creator, creation time, the
   * other boards, the elements and the permissions stay as they were.
   */
  lemma UpdateBoardOverwrites(t: Tables, boardId: int, body: Json<BoardFields>, user: int, now: Time, b: Board)
    requires Valid(t) && b in t.boards && b.id == boardId
    requires UpdateBoard(t, Some(boardId), body, Some(user), now).0.Ok?
    ensures var t' := UpdateBoard(t, Some(boardId), body, Some(user), now).1;
      var req := BindUpdateBoard(body).value;
      && b.(title := req.title, description := req.description, isPublic := req.isPublic, updatedAt := now) in t'.boards
      && (forall c <- t.boards :: c.id != boardId ==> c in t'.boards)
      && t'.elements == t.elements && t'.permissions == t.permissions
  {
    var t' := UpdateBoard(t, Some(boardId), body, Some(user), now).1;
    var i :| 0 <= i < |t.boards| && t.boards[i] == b;
    assert t'.boards[i] in t'.boards;
    forall c | c in t.boards && c.id != boardId ensures c in t'.boards {
      var k :| 0 <= k < |t.boards| && t.boards[k] == c;
      assert t'.boards[k] in t'.boards;
    }
  }

  // ---------------------------------------------------------------- deleting a board

  /** Only the creator may delete: an editor by grant gets 403 and the tables do not change. */
  lemma EditorCannotDelete(t: Tables, b: Board, user: int, fault: TxFault)
    requires Valid(t) && b in t.boards && b.creatorId != user
    ensures DeleteBoard(t, Some(b.id), Some(user), fault) == (Err(Forbidden), t)
  {
  }

  /**
   * After a successful delete no row of any table refers to the board, every row of every
   * other board is still there, and every later request on the board id is answered 404.
   */
  lemma DeleteBoardCascade(t: Tables, boardId: int, user: int, other: int, now: Time,
                           boardBody: BoardFields, elementBody: Json<ElementFields>, elementId: int)
    requires Valid(t)
    requires DeleteBoard(t, Some(boardId), Some(user), NoFault).0.Ok?
    ensures var t' := DeleteBoard(t, Some(boardId), Some(user), NoFault).1;
      && !BoardExists(t'.boards, boardId)
      && (forall e <- t'.elements :: e.boardId != boardId)
      && (forall p <- t'.permissions :: p.boardId != boardId)
      && (forall c <- t.boards :: c.id != boardId ==> c in t'.boards)
      && (forall e <- t.elements :: e.boardId != boardId ==> e in t'.elements)
      && (forall p <- t.permissions :: p.boardId != boardId ==> p in t'.permissions)
      && GetBoard(t', Some(boardId), Some(other)) == Err(NotFound)
      && UpdateBoard(t', Some(boardId), Parsed(boardBody), Some(other), now).0 == Err(NotFound)
      && DeleteBoard(t', Some(boardId), Some(other), NoFault).0 == Err(NotFound)
      && (BindCreateElement(elementBody).Some? ==>
            CreateBoardElement(t', Some(boardId), elementBody, Some(other), now).0 == Err(NotFound))
      && DeleteBoardElement(t', Some(boardId), Some(elementId), Some(other)).0 == Err(NotFound)
  {
  }

  /** A delete whose transaction fails at any step leaves every table exactly as it was. */
  lemma FailedDeleteRollsBack(t: Tables, boardId: int, user: int, fault: TxFault)
    requires Valid(t) && fault != NoFault
    ensures DeleteBoard(t, Some(boardId), Some(user), fault).1 == t
    ensures DeleteBoard(t, Some(boardId), Some(user), fault).0 != Ok(())
  {
  }

  // ---------------------------------------------------------------- elements

  /**
   * An element created by someone who may edit the board reads back through GetBoard with
   * the values sent; both timestamps are the one instant the model reads for the INSERT.
   */
  lemma ElementRoundTrip(t: Tables, boardId: int, user: int, now: Time,
                         kind: string, content: string, x: int, y: int, w: int, h: int)
    requires Valid(t) && kind != "" && EditCheck(t, boardId, user) == Pass
    ensures var (r, t') := CreateBoardElement(t, Some(boardId), Parsed(ElementBodyOf(kind, content, x, y, w, h)), Some(user), now);
      && r.Ok?
      && GetBoard(t', Some(boardId), Some(user)).Ok?
      && BoardElement(r.value, boardId, kind, content, x, y, w, h, now, now)
           in GetBoard(t', Some(boardId), Some(user)).value.elements
  {
    var (r, t') := CreateBoardElement(t, Some(boardId), Parsed(ElementBodyOf(kind, content, x, y, w, h)), Some(user), now);
    var b :| b in t.boards && b.id == boardId && CanEdit(b, t.permissions, user);
    EditImpliesView(b, t.permissions, user);
    FindBoardUnique(t'.boards, b);
  }

  /**
   * A successful element update rewrites every mutable field of that one element and stamps
   * `now`, keeping its id, board and creation time; a stamp later than creation makes
   * `updated_at > created_at`. All other elements stay as they were.
   */
  lemma UpdateElementOverwrites(t: Tables, boardId: int, e: BoardElement, body: Json<ElementFields>, user: int, now: Time)
    requires Valid(t) && e in t.elements
    requires UpdateBoardElement(t, Some(boardId), Some(e.id), body, Some(user), now).0.Ok?
    ensures var t' := UpdateBoardElement(t, Some(boardId), Some(e.id), body, Some(user), now).1;
      var req := BindUpdateElement(body).value;
      && e.boardId == boardId
      && BoardElement(e.id, boardId, req.kind, req.content, req.positionX, req.positionY, req.width, req.height,
           e.createdAt, now) in t'.elements
      && (now > e.createdAt ==> exists u <- t'.elements :: u.id == e.id && u.updatedAt > u.createdAt)
      && (forall o <- t.elements :: o.id != e.id ==> o in t'.elements)
      && t'.boards == t.boards && t'.permissions == t.permissions
  {
    var t' := UpdateBoardElement(t, Some(boardId), Some(e.id), body, Some(user), now).1;
    var o :| o in t.elements && o.id == e.id && o.boardId == boardId;
    ElementIdUnique(t.elements, e, o);
    var i :| 0 <= i < |t.elements| && t.elements[i] == e;
    assert t'.elements[i] in t'.elements;
    forall o | o in t.elements && o.id != e.id ensures o in t'.elements {
      var k :| 0 <= k < |t.elements| && t.elements[k] == o;
      assert t'.elements[k] in t'.elements;
    }
  }

  /** An element of another board is not reachable through this board's path: 404, nothing changes. */
  lemma ForeignElementRejected(t: Tables, boardId: int, e: BoardElement, body: Json<ElementFields>, user: int, now: Time)
    requires Valid(t) && e in t.elements && e.boardId != boardId
    requires EditCheck(t, boardId, user) == Pass && body.Parsed?
    ensures UpdateBoardElement(t, Some(boardId), Some(e.id), body, Some(user), now) == (Err(NotFound), t)
    ensures DeleteBoardElement(t, Some(boardId), Some(e.id), Some(user)) == (Err(NotFound), t)
  {
    if o :| o in t.elements && o.id == e.id && o.boardId == boardId {
      ElementIdUnique(t.elements, e, o);
    }
  }

  /**
   * A successful element delete removes exactly that element; updating or deleting it again
   * is answered 404.
   */
  lemma DeleteElementRemovesOnly(t: Tables, boardId: int, elementId: int, user: int, now: Time, body: Json<ElementFields>)
    requires Valid(t) && body.Parsed?
    requires DeleteBoardElement(t, Some(boardId), Some(elementId), Some(user)).0.Ok?
    ensures var t' := DeleteBoardElement(t, Some(boardId), Some(elementId), Some(user)).1;
      && (forall e <- t'.elements :: e.id != elementId)
      && (forall e <- t.elements :: e.id != elementId ==> e in t'.elements)
      && t'.boards == t.boards && t'.permissions == t.permissions
      && UpdateBoardElement(t', Some(boardId), Some(elementId), body, Some(user), now).0 == Err(NotFound)
      && DeleteBoardElement(t', Some(boardId), Some(elementId), Some(user)).0 == Err(NotFound)
  {
    var t' := DeleteBoardElement(t, Some(boardId), Some(elementId), Some(user)).1;
    var o :| o in t.elements && o.id == elementId && o.boardId == boardId;
    forall e | e in t'.elements ensures e.id != elementId {
      if e.id == elementId {
        ElementIdUnique(t.elements, e, o);
      }
    }
  }
}
