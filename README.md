# Kanban board: client cache reconciliation and route guard

This project models the client-side part of a shared Kanban board, in which
tasks sit in three columns: TODO, IN_PROGRESS and DONE.

The board page keeps the server's `boards` query result in the GraphQL client
cache. It changes that cached list in four places, each a pure function from
the existing boards to new boards:

- the merge of a `taskUpdated` push event;
- the optimistic move after a drag and drop;
- the append after a `createTask` response;
- the removal after a `deleteTask` acknowledgment.

Around these sit small decisions:

- which board the page shows and subscribes to;
- how that board's tasks split into the three columns;
- whether a drop or an "Add Task" action issues a mutation at all.

Apart from this, a Next.js middleware decides whether a request is redirected
to `/login`, redirected to `/home`, or passed through.

Modules:

- `ArrayMethods` (array_methods.dfy): `map` and `filter` as total functions on sequences.
- `BoardCache` (board_cache.dfy): the `Task`/`Board` records, the cached query result, and the four updaters.
- `BoardView` (board_view.dfy): the shown board, the subscription variable, the column filter, `trim`, and the drag-end and create guards.
- `BoardProperties` (board_properties.dfy): idempotence, no-ops, commutation, create/delete round trips, and preservation of unique task ids across updaters.
- `Middleware` (middleware.dfy): the route guard and its matcher.

Task and board ids are integers. Every task-id comparison in the page goes
through `Number(...)`, so task ids behave as numbers. Board ids are compared
with a raw `===`; that agrees with numeric equality here because both sides
come from the same cached list, and the model has no `NaN` or string ids.
Status is a string, as the page types it.

How the page treats edge cases:

- An event for a task id that no board holds is dropped. It is not inserted.
- A created task appears only when the server responds, with the server's id.
  There is no temporary id.
- There is no pending-mutation buffer and no event queue. The page's code has
  no rollback of its own; the client's optimistic layer, left out, is
  discarded when a mutation fails.
- A move or delete for an absent id is not rejected. It is a no-op on the cache.

## Model

| member | source | states |
|---|---|---|
| BoardCache.HasTaskId | app/board/page.tsx:122-124 | `some` is true exactly when some task of the board carries the id |
| BoardCache.UpdateBoards | app/board/page.tsx:117-118 | with nothing cached the updater returns nothing; otherwise the new value is the updater applied to the cached boards |
| BoardCache.MergeIntoBoard | app/board/page.tsx:121-137 | a board keeps its id, title and task count; a task with the event's id becomes the event record and every other task stays, even in the branch that filters |
| BoardCache.MergeEvent | app/board/page.tsx:120-139 | same board count, ids, titles and task counts; every task with the event id is replaced wholesale in place and the rest are untouched; an event for an id no board holds leaves the boards equal to the input, so nothing is inserted |
| BoardCache.OnTaskUpdated | app/board/page.tsx:111-141 | a message without a task leaves the cache as it is; an empty cache stays empty; otherwise the cache becomes the merge of the event |
| BoardCache.MoveTask | app/board/page.tsx:180-193 | every task with the id gets the new status and keeps its id and title; every other task, each board's id, title, length and order are unchanged |
| BoardCache.OnMoveResult | app/board/page.tsx:174-196 | the move update ignores the server's acknowledgment: the cache becomes the move of the cached boards whatever the answer |
| BoardCache.AppendCreated | app/board/page.tsx:219-231 | each board whose id is the page's board id gets `{id, title, status: TODO}` appended at its end; every other board is unchanged |
| BoardCache.OnCreateResult | app/board/page.tsx:210-234 | a response without a created task changes nothing; otherwise the cache becomes the append |
| BoardCache.WithoutTask | app/board/page.tsx:370-372 | the survivors are exactly the tasks without the id; none carries the id; a list without the id comes back unchanged |
| BoardCache.DeleteTask | app/board/page.tsx:367-374 | board ids, titles and count stay; each board's tasks are its tasks without the id; afterwards no board holds the id |
| BoardCache.OnDeleteResult | app/board/page.tsx:358-377 | only an acknowledgment that is present and true removes anything; otherwise the cache is unchanged |
| BoardView.NoBoards | app/board/page.tsx:145-147 | definition: the "No boards" guard, also the subscription's skip rule at line 109, is "nothing cached or an empty list" |
| BoardView.SkipLosesNothing | app/board/page.tsx:109-117 | skipping the subscription when there are no boards loses no update: with no boards the event handler leaves the cache as it is |
| BoardView.ShownBoard | app/board/page.tsx:149 | definition: the rendered board is the head of the cached list |
| BoardView.SubscriptionBoardId | app/board/page.tsx:104-109 | with boards present the subscription is scoped to the shown (first) board's id, whatever the truthiness test says; otherwise the variable is 0 |
| BoardView.ColumnTasks | app/board/page.tsx:151-153 | a column holds exactly the board's tasks whose status equals the column name |
| BoardView.ExactlyOneColumn | app/board/page.tsx:247-252 | a task whose status is one of the three column names is in that column and in no other |
| BoardView.ColumnsPartition | app/board/page.tsx:151-153 | when every status is a column name, the three columns together hold each task exactly as often as the board does |
| BoardView.ColumnKeepsOrder | app/board/page.tsx:252 | the column filter keeps the board's order: the column of a concatenation is the concatenation of the columns |
| BoardView.HandleDragEnd | app/board/page.tsx:155-199 | a drop with no target issues nothing and leaves the cache alone; a drop on a column issues a move of the dragged id to that column and the cache becomes exactly the move update of the cached boards; every card with that id then shows in that column and in no other |
| BoardView.MovedCards | app/board/page.tsx:181-192 | after the move update, every card with the id carries the target status, and each card that had the id reappears on its board with that status |
| BoardView.Trim | app/board/page.tsx:202 | `trim()` returns the title with a blank prefix and a blank suffix cut off (ECMAScript white space); the result is empty exactly when the title is blank, and otherwise neither starts nor ends with white space |
| BoardView.TrimStart | app/board/page.tsx:202 | the leading-white-space cut removes a blank prefix and leaves a suffix that starts with a non-blank |
| BoardView.TrimEnd | app/board/page.tsx:202 | the trailing-white-space cut removes a blank suffix and leaves a prefix that ends with a non-blank |
| BoardView.HandleCreateTask | app/board/page.tsx:201-238 | once a board is shown, a blank title issues nothing and keeps the input; any other title issues a create with the untrimmed title for the shown board's id and clears the input |
| BoardProperties.MergeIdempotent | app/board/page.tsx:120-138 | applying the same event twice gives the same boards as applying it once |
| BoardProperties.MergeKeepsIds | app/board/page.tsx:126-136 | after a merge, every position holds a task with the same id as before |
| BoardProperties.MergePreservesUniqueIds | app/board/page.tsx:120-138 | a merge keeps task ids unique across all boards |
| BoardProperties.EventBeforeCreateIsDropped | app/board/page.tsx:122-136 | an event for a task whose create response has not arrived is lost; the create then appends the server's record with TODO |
| BoardProperties.EventAfterCreateReplaces | app/board/page.tsx:120-136 | after a create, an event for the new id replaces the appended task in place, so the task is not shown twice |
| BoardProperties.MoveIdempotent | app/board/page.tsx:181-192 | running the move update twice with the same id and status equals running it once |
| BoardProperties.MoveAbsentIsNoop | app/board/page.tsx:183-190 | moving an id no board holds leaves the boards unchanged |
| BoardProperties.MoveToCurrentStatusIsNoop | app/board/page.tsx:183-190 | moving a task to the status it already has leaves the boards unchanged |
| BoardProperties.MovePreservesUniqueIds | app/board/page.tsx:181-192 | a move keeps task ids unique across all boards |
| BoardProperties.MoveCommutesWithOtherEvent | app/board/page.tsx:120-192 | a move and an event for a different id give the same boards in either order |
| BoardProperties.CreateForUnknownBoardIsNoop | app/board/page.tsx:220-230 | a create for a board id the cache does not hold changes nothing |
| BoardProperties.CreatePreservesUniqueIds | app/board/page.tsx:219-231 | a create with a fresh task id, into a cache where at most one board has the board id, keeps task ids unique |
| BoardProperties.DeleteUndoesCreate | app/board/page.tsx:219-231 | deleting the created id after a create gives the same boards as deleting it before |
| BoardProperties.DeleteUndoesFreshCreate | app/board/page.tsx:219-231 | when the created id was not cached, deleting it restores the boards exactly |
| BoardProperties.WithoutTaskAppend | app/board/page.tsx:370-372 | the delete filter keeps the survivors' relative order |
| BoardProperties.WithoutTaskDistinct | app/board/page.tsx:370-372 | filtering a list with distinct ids keeps them distinct |
| BoardProperties.WithoutTaskRemovesOne | app/board/page.tsx:370-372 | with distinct ids, a board holding the id loses exactly one task and any other board loses none |
| BoardProperties.DeleteIdempotent | app/board/page.tsx:367-374 | deleting the same id twice equals deleting it once |
| BoardProperties.DeleteAbsentIsNoop | app/board/page.tsx:367-374 | deleting an id no board holds leaves the boards unchanged |
| BoardProperties.DeletePreservesUniqueIds | app/board/page.tsx:367-374 | a delete keeps task ids unique across all boards |
| Middleware.HasToken | app/middleware.ts:5 | definition: the token test is the presence of a `jwt` cookie, whatever its value |
| Middleware.IsAuthPage | app/middleware.ts:9 | definition: the auth-page test is an exact match on `/login` (its consequences are in AuthPageIsExact and AuthPageIsNotProtected) |
| Middleware.IsProtected | app/middleware.ts:10-12 | definition: a path is protected when its first characters are `/home` or `/board` (its consequence is in ProtectionIsPrefix) |
| Middleware.Decide | app/middleware.ts:4-25 | redirect to `/login` exactly when there is no token and the path is protected; redirect to `/home` exactly when there is a token and the path is `/login`; pass through in every other case |
| Middleware.AuthPageIsNotProtected | app/middleware.ts:9-12 | `/login` is not protected, so the two redirect rules never both apply |
| Middleware.RedirectTargetPasses | app/middleware.ts:14-22 | following either redirect with the same cookies reaches a page the guard passes: no redirect loop |
| Middleware.ProtectionIsPrefix | app/middleware.ts:10-12 | any path beginning with `/home` or `/board`, such as `/homepage`, counts as protected |
| Middleware.AuthPageIsExact | app/middleware.ts:9 | a path that only starts with `/login` is not the auth page |
| Middleware.Matched | app/middleware.ts:27-29 | the matcher covers `/home` and `/board` with or without deeper segments, and `/login`; every path it covers is protected or the auth page |
| Middleware.Route | app/middleware.ts:27-29 | matched paths get exactly the guard's decision; unmatched paths pass through; a redirect target is itself matched, and the guard passes it |
| Middleware.UnmatchedProtectedPathPasses | app/middleware.ts:10-29 | `/homepage` passes the prefix test but not the matcher, so the guard never runs there |

## Left out

- Rendering, layout, styling and `useState` plumbing are left out. The `Column` and `TaskCard` components are left out too, apart from the column filter. These are UI.
- Drag gesture capture is left out. It lives in an external library. Only the `over`-is-null guard and the target column are modelled.
- The GraphQL client itself is left out: the cache store, `updateQuery`, the optimistic layer and what the client does when a mutation fails. The model takes the updater functions the page passes to the client.
- The network mutations and subscriptions are left out. Their results are parameters of the model: an optional event, an optional created task, an optional acknowledgment.
- The `console.log` in the drag handler is left out.
- Issuing the delete mutation is left out. The button always issues it with the card's id, and only its cache update is modelled.
- Number conversion is not modelled. Ids are integers, so `NaN` and string ids are not represented.
- JavaScript strings are UTF-16, but the model uses code points. `trim()` strips the ECMAScript white-space set, which lies entirely in the basic plane, so the two agree.
- Middleware.Matched: the `:path*` pattern is approximated. It covers the bare prefix and anything starting with the prefix plus `/`. Next.js handling of empty or repeated segments and trailing slashes is not modelled.
- Middleware.Decide: only the redirect's path is modelled. The `URL` object and `NextResponse` are not.
- The client's transport setup is not part of this model. This covers HTTP versus WebSocket links and building the cache.
- The navigation bar's logout is not part of this model. It is a `fetch` plus navigation.
