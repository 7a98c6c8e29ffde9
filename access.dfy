/**
 * Who may see and who may change a board (handlers/board.go). Permission rows are a
 * sequence in table order: the schema does not make (board_id, user_id) unique, and where
 * the handlers read ONE grant with `QueryRow` the model reads the first matching row.
 */
module Access {
  import opened Optional
  import opened Models

  /** The row is a grant on `boardId` for `userId`. */
  predicate IsGrant(p: BoardPermission, boardId: int, userId: int) {
    p.boardId == boardId && p.userId == userId
  }

  /** Some permission row exists for (board, user), whatever its `can_edit`. */
  predicate HasGrant(perms: seq<BoardPermission>, boardId: int, userId: int) {
    exists p <- perms :: IsGrant(p, boardId, userId)
  }

  /** No two permission rows name the same (board, user) pair. */
  predicate UniqueGrants(perms: seq<BoardPermission>) {
    forall i, j :: 0 <= i < j < |perms| ==>
      !(perms[i].boardId == perms[j].boardId && perms[i].userId == perms[j].userId)
  }

  /** The index of the first grant on (board, user), or |perms| when there is none. */
  function GrantIndex(perms: seq<BoardPermission>, boardId: int, userId: int): (i: nat)
    ensures i <= |perms|
    ensures i < |perms| ==> IsGrant(perms[i], boardId, userId)
    ensures forall j :: 0 <= j < i ==> !IsGrant(perms[j], boardId, userId)
  {
    if perms == [] then 0
    else if IsGrant(perms[0], boardId, userId) then 0
    else 1 + GrantIndex(perms[1..], boardId, userId)
  }

  /** The `can_edit` flag that `SELECT can_edit ... WHERE board_id = $1 AND user_id = $2` reads, or None for no rows. */
  function FirstGrant(perms: seq<BoardPermission>, boardId: int, userId: int): (r: Option<bool>)
    ensures r.None? <==> !HasGrant(perms, boardId, userId)
    ensures r.Some? ==> exists p <- perms :: IsGrant(p, boardId, userId) && p.canEdit == r.value
  {
    var i := GrantIndex(perms, boardId, userId);
    if i < |perms| then Some(perms[i].canEdit) else None
  }

  /** The view rule of GetBoard: creator, or public board, or any grant row. */
  predicate CanView(board: Board, perms: seq<BoardPermission>, user: int) {
    board.creatorId == user || board.isPublic || HasGrant(perms, board.id, user)
  }

  /** The edit rule of UpdateBoard and the element handlers: creator, or a grant read with `can_edit = true`. */
  predicate CanEdit(board: Board, perms: seq<BoardPermission>, user: int) {
    board.creatorId == user || FirstGrant(perms, board.id, user) == Some(true)
  }

  /** Whoever may edit a board may also view it. */
  lemma EditImpliesView(board: Board, perms: seq<BoardPermission>, user: int)
    ensures CanEdit(board, perms, user) ==> CanView(board, perms, user)
  {
  }

  /** A non-creator who may edit holds at least one row with `can_edit = true`. */
  lemma EditNeedsEditGrant(board: Board, perms: seq<BoardPermission>, user: int)
    requires board.creatorId != user
    ensures CanEdit(board, perms, user) ==> exists p <- perms :: IsGrant(p, board.id, user) && p.canEdit
  {
  }

  /**
   * With at most one row per (board, user), reading the first row is the same as asking
   * whether some row grants edit rights.
   */
  lemma {:induction false} EditWithUniqueGrants(board: Board, perms: seq<BoardPermission>, user: int)
    requires UniqueGrants(perms)
    ensures CanEdit(board, perms, user) <==>
      board.creatorId == user || exists p <- perms :: IsGrant(p, board.id, user) && p.canEdit
  {
    if board.creatorId != user && (exists p <- perms :: IsGrant(p, board.id, user) && p.canEdit) {
      var p :| p in perms && IsGrant(p, board.id, user) && p.canEdit;
      var k :| 0 <= k < |perms| && perms[k] == p;
      var i := GrantIndex(perms, board.id, user);
      assert i <= k;
    }
  }

  /**
   * Without uniqueness the first row decides: a read-only row listed before an edit row
   * denies edit although an edit grant exists.
   */
  lemma DuplicateGrantsFirstRowWins(board: Board, user: int)
    requires board.creatorId != user
    ensures var perms := [BoardPermission(board.id, user, false), BoardPermission(board.id, user, true)];
      && !CanEdit(board, perms, user)
      && (exists p <- perms :: IsGrant(p, board.id, user) && p.canEdit)
  {
    var perms := [BoardPermission(board.id, user, false), BoardPermission(board.id, user, true)];
    assert perms[1] in perms;
  }

  /** A private board is closed to a stranger without a grant row: no view, no edit. */
  lemma PrivateBoardClosed(board: Board, perms: seq<BoardPermission>, user: int)
    requires board.creatorId != user && !board.isPublic && !HasGrant(perms, board.id, user)
    ensures !CanView(board, perms, user) && !CanEdit(board, perms, user)
  {
  }

  /** Visibility opens viewing to everyone and has no bearing on editing. */
  lemma PublicBoardViewOnly(board: Board, perms: seq<BoardPermission>, user: int)
    requires board.isPublic
    ensures CanView(board, perms, user)
    ensures CanEdit(board, perms, user) == CanEdit(board.(isPublic := false), perms, user)
  {
  }
}
