# MicroMiro whiteboard: a Dafny model of the board service, the canvas store and the route guard

MicroMiro is a collaborative whiteboard. Its Go backend keeps boards, their elements
(notes, shapes) and per-user permission rows in PostgreSQL. A creator may do anything to
their board. A public board may be viewed by any signed-in user. Anyone with a permission
row may view a board, and a row with `can_edit` also lets that user change its elements
and its settings. The Vue front end keeps the shapes of the open canvas in a Pinia store
and guards its pages with a router hook that sends users without a token to the login
page.

This project models four parts:

- **Records and request binding** (`models.dfy`, from `models/board.go`). The three row
  types and the four request records. A decoded JSON body is either malformed or assigns
  each key a value or nothing. Binding applies gin's `binding:"required"` rule to
  `title` / `type`. Omitted keys get Go zero values, so an update is never partial.
- **Access rules** (`access.dfy`). CanView is the condition of GetBoard's visibility query
  (handlers/board.go:133-137). CanEdit is the Go branching of the edit check
  (handlers/board.go:200-224): the creator passes, anyone else needs the grant lookup to
  read `can_edit = true`. The schema does not make (board, user) unique in
  `board_permissions`, and the grant lookup reads one row with `QueryRow` and no ORDER BY,
  so with several matching rows the database may return any of them. The model chooses the
  first matching row in table order. Lemmas show that this choice does not matter when the
  pairs are unique, where it equals "some row grants edit", and give a two-row table where
  it does.
- **The eight board handlers**, in two forms:
  - `board_rules.dfy`: pure step functions from the tables and the parsed request to a
    response and new tables. Each step keeps the database valid: unique primary keys below
    their serial counters, and foreign keys from elements and permission rows to boards.
  - `board_store.dfy`: a `BoardStore` class whose fields are the tables. Its methods run
    each handler's checks in the handler's own order with early returns. They keep the
    `for rows.Next()` scans as loops and run the delete cascade on a transaction copy that
    only COMMIT publishes. Each method ends in exactly the response and state of its step
    function.
  - `board_properties.dfy` proves the cross-call promises: who gets which status, what a
    listing holds and in what order, the delete cascade and its rollback, and that elements
    read back as they were written.
- **Front end**:
  - `canvas_store.dfy`: the canvas store as a class with the getter and all seven actions.
  - `router.dfy`: the route table, vue-router's path matching (static segments compared up
    to ASCII case, `:param` segments, optional trailing slash) and the `beforeEach` guard.
    The table is the constant `Routes`; what each record does is stated by the lemmas about
    the paths it matches (KnownPaths, ProtectedPages, CanvasIsOpen, RootRedirectsToBoards).
    The main property is that a redirect by the guard never leads to another redirect.

Inputs that come from outside are parameters:

- the caller's id from the auth middleware (`None` when it is missing);
- path ids after `strconv.Atoi` (`None` when they do not parse);
- the current time;
- where the delete transaction fails, if it does;
- the token read from local storage.

Behaviour of the code that the model keeps, although it may surprise:

- GetBoards does not list public boards of others.
- A board is listed once per grant row.
- With several grant rows for one (board, user), a non-creator's edit rights come from
  whichever row the grant lookup returns (the model's first row, see above).
- With a token, `/auth/` and `/AUTH` reach the login page without redirection, because
  the guard compares `to.path` with `/auth` exactly.
- DELETE /boards/:id answers 400 for an id that does not parse (handlers/board.go:239-243).

Each BoardStore method and the step function of the same name describe one handler twice
on purpose. The step function is the specification, and the method is the handler's
statement-by-statement form (its scan loops, early returns and transaction), proved to end
in the step function's response and tables.

## Model

| member | source | states |
|---|---|---|
| Models.BindCreateBoard | models/board.go:28-32 | binding fails exactly for an undecodable body or a missing or empty title; the title is kept, a sent description / is_public reaches the request, and an omitted one becomes "" / false |
| Models.BindUpdateBoard | models/board.go:34-38 | every decodable body binds; each sent key reaches the request and each omitted key becomes its zero value |
| Models.BindCreateElement | models/board.go:40-47 | binding fails exactly for an undecodable body or a missing or empty type; every sent key reaches the request (sizes with no range check) and every omitted key becomes "" or 0 |
| Models.BindUpdateElement | models/board.go:49-56 | every decodable body binds; sent keys reach the request, omitted strings become "" and omitted numbers 0 |
| Models.CreateBoardRoundTrip | models/board.go:28-32 | a full create-board body binds to exactly its title, description and visibility iff the title is non-empty |
| Models.UpdateBoardRoundTrip | models/board.go:34-38 | a body with every key of an update-board request binds back to that request |
| Models.CreateElementRoundTrip | models/board.go:40-47 | a full element body binds to exactly its values iff its type is non-empty |
| Models.UpdateElementRoundTrip | models/board.go:49-56 | a body with every key of an update-element request binds back to that request |
| Models.EmptyUpdateResets | models/board.go:34-38 | an empty update body resets title, description, visibility and all element fields to zero values |
| Access.GrantIndex | handlers/board.go:215-216 | the position of the first grant row for (board, user), or the table length when there is none |
| Access.FirstGrant | handlers/board.go:215-222 | no value iff no grant row exists (`sql.ErrNoRows`); otherwise the `can_edit` of an existing grant row |
| Access.HasGrant | handlers/board.go:135-137 | definition: some permission row names (board, user), whatever its `can_edit` |
| Access.CanView | handlers/board.go:133-137 | definition: the caller is the creator, or the board is public, or the caller holds a grant row |
| Access.CanEdit | handlers/board.go:200-224 | definition: the caller is the creator, or the grant row the lookup reads (the model's first) has `can_edit` |
| Access.EditImpliesView | handlers/board.go:133-137 | whoever may edit a board may view it |
| Access.EditNeedsEditGrant | handlers/board.go:213-224 | a non-creator who may edit holds a grant row with `can_edit` |
| Access.EditWithUniqueGrants | handlers/board.go:213-224 | with unique (board, user) rows, edit rights hold iff the caller is the creator or some row grants edit |
| Access.DuplicateGrantsFirstRowWins | handlers/board.go:215-218 | with a read-only row before an edit row, edit is denied although an edit grant exists |
| Access.PrivateBoardClosed | handlers/board.go:133-137 | a stranger without a grant row can neither view nor edit a private board |
| Access.PublicBoardViewOnly | handlers/board.go:133-137 | a public board is viewable by all, and visibility has no bearing on edit rights |
| BoardRules.FindBoard | handlers/board.go:202-203 | the lookup by id finds a board with that id iff one exists |
| BoardRules.Valid | database/tables.go:31-101 | definition: board and element ids unique and below their serial counters; every element and permission row refers to an existing board |
| BoardRules.OwnBoards | handlers/board.go:64-83 | the first listing query yields exactly the caller's boards |
| BoardRules.JoinRows | handlers/board.go:86-89 | the join yields a board for the caller iff a grant row for it exists |
| BoardRules.SharedBoards | handlers/board.go:86-105 | the second listing query yields exactly the boards of other creators that the caller holds a grant row for |
| BoardRules.ListBoards | handlers/board.go:63-105 | the listing holds exactly the boards the caller created or holds a grant row for |
| BoardRules.ElementsOf | handlers/board.go:149-168 | the element query yields exactly the elements of the board |
| BoardRules.CountElement | handlers/board.go:442-452 | the count is zero iff no element has that id on that board |
| BoardRules.UpdatedBoard | handlers/board.go:226-228 | one board row after the UPDATE: id, creator and created_at kept; title, description and is_public from the request; updated_at the time |
| BoardRules.SetBoardFields | handlers/board.go:226-228 | the UPDATE over the table: same length and keys row by row; rows with another id unchanged; rows with the id carry the request's values and the time |
| BoardRules.UpdatedElement | handlers/board.go:454-457 | one element row after the UPDATE: id, board and created_at kept; every other column from the request and the time |
| BoardRules.SetElementFields | handlers/board.go:454-457 | the UPDATE over the table: same length and keys row by row; only the (id, board) row is rewritten, as UpdatedElement |
| BoardRules.DeleteElementsOf | handlers/board.go:283 | removes exactly the board's elements and keeps element ids distinct |
| BoardRules.DeletePermissionsOf | handlers/board.go:291 | removes exactly the board's permission rows |
| BoardRules.DeleteBoardRow | handlers/board.go:299 | removes exactly the board row and keeps board ids distinct |
| BoardRules.DeleteElementRow | handlers/board.go:532-534 | removes exactly the element with that id on that board |
| BoardRules.SameBoardKeysKeep | handlers/board.go:227-228 | rewriting board rows without changing ids, creators or creation times keeps the database valid |
| BoardRules.SetBoardFieldsKeeps | handlers/board.go:227-228 | the board UPDATE keeps the database valid and every creator in place |
| BoardRules.EditCheck | handlers/board.go:200-224 | 404 exactly when no board has the id; otherwise 403 or pass, and a pass means the caller may edit that board |
| BoardRules.CreateBoard | handlers/board.go:15-46 | 400 iff binding fails, 401 iff binding succeeds without a caller; success appends a board with a fresh id owned by the caller; the database stays valid |
| BoardRules.GetBoards | handlers/board.go:49-108 | 401 without a caller; otherwise it lists exactly the boards the caller created or holds a grant row for |
| BoardRules.GetBoard | handlers/board.go:111-171 | 400 / 401 / 404 in that order; success returns a board with the id that the caller may view, and exactly its elements |
| BoardRules.UpdateBoard | handlers/board.go:174-235 | 400 for a bad id or body, then 401, then the edit check's 404 / 403; success overwrites that board's fields only; an error changes nothing |
| BoardRules.DeleteBoard | handlers/board.go:238-313 | 400, 401, 404, 403 for non-creators, and 500 exactly for a failed transaction, each iff its condition holds; success removes the board, its elements and its permission rows |
| BoardRules.CreateBoardElement | handlers/board.go:316-380 | 400 for a bad id or body, then 401, then the edit check; success appends an element with a fresh id, both timestamps set from the one instant the model reads (see Left out) |
| BoardRules.UpdateBoardElement | handlers/board.go:383-464 | after the edit check, 404 iff the element is not on that board; success rewrites that element only |
| BoardRules.DeleteBoardElement | handlers/board.go:467-541 | after the edit check, 404 iff the element is not on that board; success deletes that element only |
| BoardHandlers.BoardStore.constructor | database/tables.go:31-101 | the store starts from valid tables and holds exactly them |
| BoardHandlers.BoardStore.CheckEdit | handlers/board.go:200-224 | the creator lookup and the grant lookup give the shared edit check's outcome |
| BoardHandlers.BoardStore.CreateBoard | handlers/board.go:15-46 | the INSERT gives the response and tables of BoardRules.CreateBoard and keeps the database valid |
| BoardHandlers.BoardStore.ScanOwnBoards | handlers/board.go:64-83 | the row-by-row scan collects exactly OwnBoards, in storage order |
| BoardHandlers.BoardStore.ScanSharedBoards | handlers/board.go:86-105 | the row-by-row scan of the join collects exactly SharedBoards |
| BoardHandlers.BoardStore.GetBoards | handlers/board.go:49-108 | the two scans appended give BoardRules.GetBoards |
| BoardHandlers.BoardStore.GetBoard | handlers/board.go:111-171 | the visibility query and the element scan give BoardRules.GetBoard |
| BoardHandlers.BoardStore.UpdateBoard | handlers/board.go:174-235 | gives the response and tables of BoardRules.UpdateBoard and keeps the database valid |
| BoardHandlers.BoardStore.DeleteBoard | handlers/board.go:238-313 | three deletes on a transaction copy, published only at COMMIT: the response and tables of BoardRules.DeleteBoard, including rollback |
| BoardHandlers.BoardStore.CreateBoardElement | handlers/board.go:316-380 | gives the response and tables of BoardRules.CreateBoardElement and keeps the database valid |
| BoardHandlers.BoardStore.UpdateBoardElement | handlers/board.go:383-464 | gives the response and tables of BoardRules.UpdateBoardElement and keeps the database valid |
| BoardHandlers.BoardStore.DeleteBoardElement | handlers/board.go:467-541 | gives the response and tables of BoardRules.DeleteBoardElement and keeps the database valid |
| BoardProperties.FindBoardUnique | database/tables.go:40 | with `boards.id` a primary key, the lookup by a board's id finds that very board |
| BoardProperties.ElementIdUnique | database/tables.go:66 | with `board_elements.id` a primary key, two elements with one id are the same element |
| BoardProperties.EditCheckRule | handlers/board.go:200-224 | for an existing board the edit check passes iff CanEdit holds, and always for the creator |
| BoardProperties.GetBoardAccess | handlers/board.go:133-146 | GetBoard succeeds iff a board with the id exists that the caller may view; every failure there is 404 |
| BoardProperties.PublicBoardNotListed | handlers/board.go:64-105 | another creator's public board without a grant row for the caller is not listed |
| BoardProperties.ListBoardsOrder | handlers/board.go:63-107 | the listing starts with the caller's own boards; every later entry belongs to another creator and has a grant row for the caller |
| BoardProperties.OwnBoardsNoRepeats | handlers/board.go:64-83 | the own-boards query yields no board twice |
| BoardProperties.ElementsOfNoRepeats | handlers/board.go:149-168 | with element ids a primary key, the element query yields no element twice |
| BoardProperties.JoinRowsAtMostOne | handlers/board.go:86-89 | with unique grant pairs the join yields each board at most once |
| BoardProperties.SharedBoardsNoRepeats | handlers/board.go:86-105 | with unique grant pairs the shared-boards query yields no board twice |
| BoardProperties.ListBoardsNoRepeats | handlers/board.go:63-107 | with unique grant pairs the listing has no duplicates |
| BoardProperties.DuplicateGrantListedTwice | handlers/board.go:86-105 | two grant rows for one pair list the shared board twice |
| BoardProperties.NoElementsOfMissingBoard | database/tables.go:97-101 | by the foreign key, an id that no board has owns no element |
| BoardProperties.ReadOwnEmptyBoard | handlers/board.go:111-171 | the creator reads a board that has no elements back as that board with an empty element list |
| BoardProperties.CreatedBoardOwnedAndEmpty | handlers/board.go:15-46 | a created board is listed for its creator under the returned id and opens for them with no elements |
| BoardProperties.UpdateBoardOverwrites | handlers/board.go:226-228 | a successful update writes the request's title, description, visibility and the time; id, creator, other boards, elements and permissions stay |
| BoardProperties.EditorCannotDelete | handlers/board.go:268-273 | a non-creator gets 403 on delete, even with an edit grant, and nothing changes |
| BoardProperties.DeleteBoardCascade | handlers/board.go:275-312 | after a delete nothing refers to the board; all other rows remain; get, update, delete, create-element and delete-element on the id answer 404 |
| BoardProperties.FailedDeleteRollsBack | handlers/board.go:275-310 | a delete whose transaction fails at any step leaves every table as it was and does not succeed |
| BoardProperties.ElementRoundTrip | handlers/board.go:366-379 | an element created by an editor reads back through GetBoard with the values sent and the returned id |
| BoardProperties.UpdateElementOverwrites | handlers/board.go:454-457 | a successful update rewrites that element's fields and updated_at and keeps its id, board and created_at; other elements stay |
| BoardProperties.ForeignElementRejected | handlers/board.go:440-452 | an element of another board is answered 404 by update and delete through this board, and nothing changes |
| BoardProperties.DeleteElementRemovesOnly | handlers/board.go:519-534 | a delete removes that element and nothing else; updating or deleting it again gives 404 |
| Router.FirstMatch | microMiro/src/router/index.js:9-37 | the first record of the table whose compiled path matches, or none |
| Router.Matches | microMiro/src/router/index.js:11-33 | definition: the path is the record's segments in order, static ones equal up to ASCII case, `:id` one or more characters without '/', then an optional '/' and the end; the root path '/' is one empty static segment, so its record matches '/' and '//' and never the empty string |
| Router.Matched | microMiro/src/router/index.js:43 | `to.matched` holds at most one record, is empty iff no record matches, and holds only matching records |
| Router.Resolve | microMiro/src/router/index.js:10-13 | the path changes only when the matched record redirects, and a matched redirect is always followed to that record's target |
| Router.HasToken | microMiro/src/router/index.js:42-46 | definition: a stored token that `!token` treats as present, i.e. present and not empty |
| Router.RequiresAuth | microMiro/src/router/index.js:43 | definition: some matched record has `meta.requiresAuth` true |
| Router.Guard | microMiro/src/router/index.js:41-56 | redirect to /auth iff the page requires auth and there is no token; redirect to /boards iff the path is /auth and a token is present; no other target |
| Router.KnownPaths | microMiro/src/router/index.js:14-25 | /auth and /boards each match their own record only and do not redirect |
| Router.AtMostOneMatch | microMiro/src/router/index.js:9-37 | no path matches two records, so route ranking never matters |
| Router.NoRedirectLoop | microMiro/src/router/index.js:41-56 | for every path and token state, the guard lets the target of its own redirect through |
| Router.Navigate | microMiro/src/router/index.js:41-56 | a navigation settles after at most one guard redirect, on a page the guard lets through, and only /boards or /auth can replace the target |
| Router.RootRedirectsToBoards | microMiro/src/router/index.js:10-13 | / and // go to /boards with a token and end at /auth without one |
| Router.RootPaths | microMiro/src/router/index.js:10-13 | the root record is the one record matched by / and by // |
| Router.EmptyPathUnmatched | microMiro/src/router/index.js:9-37 | no record matches the empty string |
| Router.ProtectedPages | microMiro/src/router/index.js:20-31 | a path requires auth iff it matches the boards or board record |
| Router.BoardPageProtected | microMiro/src/router/index.js:26-31 | /board/<id> requires auth, and without a token goes to /auth |
| Router.CanvasIsOpen | microMiro/src/router/index.js:32-36 | /canvas has no meta and is never redirected, whatever the token |
| Router.EmptyTokenIsNoToken | microMiro/src/router/index.js:42-47 | an empty stored token counts as no token |
| Router.AuthPageVariants | microMiro/src/router/index.js:50-51 | with a token, /auth redirects to /boards, but /auth/ and /AUTH match the login page and proceed |
| Canvas.FindIndex | microMiro/src/store/canvas.js:22 | -1 iff no shape has the id, otherwise the first position holding it |
| Canvas.Find | microMiro/src/store/canvas.js:12 | no result iff no shape has the id, otherwise the first shape holding it |
| Canvas.WithoutId | microMiro/src/store/canvas.js:29 | keeps exactly the shapes with another id |
| Canvas.WithoutAbsentId | microMiro/src/store/canvas.js:29 | filtering an id no shape has changes nothing |
| Canvas.RemoveIdempotent | microMiro/src/store/canvas.js:28-33 | removing an id twice is removing it once |
| Canvas.WithoutIdAppend | microMiro/src/store/canvas.js:17-29 | removal distributes over appending: a shape pushed later is filtered on its own |
| Canvas.FindAfterRemove | microMiro/src/store/canvas.js:28-33 | removing one id leaves the lookup of every other id unchanged |
| Canvas.FindAfterAppend | microMiro/src/store/canvas.js:17-19 | after a push, a lookup that succeeded before gives the same shape; otherwise it finds the new shape iff that shape has the id |
| Canvas.ReplaceKeepsIds | microMiro/src/store/canvas.js:21-26 | replacing the first shape with the updated shape's id keeps every id in place and makes the lookup find the new shape |
| Canvas.CanvasStore.constructor | microMiro/src/store/canvas.js:5-8 | starts with no shapes and no selection |
| Canvas.CanvasStore.SelectedShape | microMiro/src/store/canvas.js:11-13 | nothing iff no selection or no shape holds the selected id; otherwise the first stored shape with that id |
| Canvas.CanvasStore.AddShape | microMiro/src/store/canvas.js:17-19 | the shape is appended; the selection and the shape it denotes stay |
| Canvas.CanvasStore.UpdateShape | microMiro/src/store/canvas.js:21-26 | the first shape with the id is replaced in place, or nothing changes; ids and length never change; a selected updated shape becomes the selected shape |
| Canvas.CanvasStore.RemoveShape | microMiro/src/store/canvas.js:28-33 | every shape with the id goes, the rest keep their order; the selection is cleared iff it was that id, and otherwise still denotes the same shape |
| Canvas.CanvasStore.SelectShape | microMiro/src/store/canvas.js:35-37 | selects the id even if no shape holds it; shapes unchanged |
| Canvas.CanvasStore.ClearSelection | microMiro/src/store/canvas.js:39-41 | no selection; shapes unchanged |
| Canvas.CanvasStore.SetShapes | microMiro/src/store/canvas.js:43-45 | the list is replaced and the selection is kept |
| Canvas.CanvasStore.ClearShapes | microMiro/src/store/canvas.js:47-50 | no shapes and no selection |

## Left out

- Storage failures other than those of the delete transaction are not modelled. These are
  a failed database connection, a failed query, scan, INSERT, UPDATE or DELETE, and every
  500 they cause. The model's handlers cannot fail on storage outside DeleteBoard.
- In the grant lookup of the edit check (handlers/board.go:216-222), a storage error
  leaves `canEdit` false. It is therefore answered 403, and the 500 branch after it cannot
  be reached. The model has no storage errors, so this is not visible in it.
- Column widths and integer sizes are not modelled: `varchar(100)` titles, `varchar(50)`
  types, 32-bit `integer` columns, `serial` overflow. Ids, positions and sizes are
  unbounded integers.
- NULL columns are not modelled, and the users table is not part of this model. Creator
  ids are plain integers. The foreign key from `boards.creator_id` to users is not checked.
- The `id`, `created_at` and `updated_at` columns of `board_permissions` are not modelled.
  No handler writes permission rows; they come with the initial tables.
- BoardRules.CreateBoard: handlers/board.go:39 calls `time.Now()` twice, once for
  `created_at` and once for `updated_at`. The model writes one instant into both, so two
  slightly different timestamps are not modelled. The same holds for
  BoardHandlers.BoardStore.CreateBoard.
- BoardRules.CreateBoardElement: handlers/board.go:373 calls `time.Now()` twice, once for
  `created_at` and once for `updated_at`. The model writes one instant into both, so two
  slightly different timestamps are not modelled (ElementRoundTrip reads back that one
  instant twice).
- BoardHandlers.BoardStore.CreateBoardElement: the same single instant for both
  timestamps as BoardRules.CreateBoardElement.
- Row order: no query has an ORDER BY, so SQL promises no order. The model chooses one:
  rows are kept in table order, an INSERT appends, an UPDATE keeps the row in its place
  (SetBoardFields, SetElementFields), and the join is read board by board, then grant by
  grant. Any other order the database may produce is not modelled; the order lemmas
  (ListBoardsOrder) are about this choice.
- Requests run one at a time. Concurrent requests and their interleavings
  (last-writer-wins on updates) are not modelled.
- Authentication is outside the model: registration, login, password hashing, JWT issue
  and the middleware that verifies tokens. The middleware's result is the `user` input.
- gin's JSON decoding is reduced to "malformed, or each key present or absent". Unknown
  keys and numbers outside Go's `int` range are not modelled.
- Router.Matched: the router's internals are not modelled. This covers ranking, query
  strings and hashes, URL encoding, non-ASCII case folding, the history base and the
  loading of page components. A redirect of the guard is modelled as a new navigation,
  which runs the guard again.
- Router.Resolve: one redirect is followed. vue-router follows redirect chains, but the
  only redirect target in the table, /boards, does not redirect (Router.KnownPaths).
- The token is an input: reading local storage, and writing it at login, are not modelled.
- Canvas.CanvasStore.SetShapes: the store keeps the caller's array itself in the source,
  so a later `addShape` also changes the caller's array. The model copies the value, so
  this aliasing and Pinia's reactivity are not captured.
- Canvas.Shape: shapes have integer ids only. Shapes without an id, or whose id is
  another JS value (which `===` would compare differently), are not modelled.
