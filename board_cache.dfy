/**
 * The board page's view of the server data (the cached result of the
 * `boards` query) and the four functions through which every change
 * reaches that cache: the push-event merge, the drag-and-drop move, the
 * create response and the delete acknowledgment. Each is a total function
 * from the existing boards to new boards.
 */
module BoardCache {
  import opened ArrayMethods

  datatype Option<T> = None | Some(value: T)

  /** A task's column. The page types it as a plain string. */
  type Status = string

  const Todo: Status := "TODO"
  const InProgress: Status := "IN_PROGRESS"
  const Done: Status := "DONE"

  /** The three columns, in the order the page lays them out. */
  const Columns: seq<Status> := [Todo, InProgress, Done]

  /**
   * Ids are numbers: every task-id comparison goes through `Number(...)`.
   * Board ids are compared with a raw `===`, which agrees with numeric
   * equality here because both sides come from the same cached list.
   */
  datatype Task = Task(id: int, title: string, status: Status)

  datatype Board = Board(id: int, title: string, tasks: seq<Task>)

  /** The `createTask` payload: the server sends no status. */
  datatype CreatedTask = CreatedTask(id: int, title: string)

  /** The cached `boards` query result; `None` while nothing is cached. */
  type Cache = Option<seq<Board>>

  /** `tasks.some(t => Number(t.id) === Number(id))`. */
  function HasTaskId(tasks: seq<Task>, id: int): (r: bool)
    ensures r <==> exists j :: 0 <= j < |tasks| && tasks[j].id == id
  {
    if tasks == [] then false
    else tasks[0].id == id || HasTaskId(tasks[1..], id)
  }

  /** Some board of `boards` holds a task with this id. */
  ghost predicate AnyBoardHas(boards: seq<Board>, id: int) {
    exists i, j :: 0 <= i < |boards| && 0 <= j < |boards[i].tasks| && boards[i].tasks[j].id == id
  }

  /**
   * Every updater starts with `if (!existing) return existing`: with no
   * cached result there is nothing to update.
   */
  function UpdateBoards(cache: Cache, f: seq<Board> -> seq<Board>): (r: Cache)
    ensures r.None? <==> cache.None?
    ensures cache.Some? ==> r.value == f(cache.value)
  {
    match cache
    case None => None
    case Some(boards) => Some(f(boards))
  }

  // ---------------------------------------------------------------------
  // Push-event merge (the subscription's onData)
  // ---------------------------------------------------------------------

  /** One board under a `taskUpdated` event. */
  function MergeIntoBoard(board: Board, event: Task): (r: Board)
    ensures r.id == board.id && r.title == board.title
    ensures |r.tasks| == |board.tasks|
    ensures forall j :: 0 <= j < |board.tasks| ==>
      r.tasks[j] == (if board.tasks[j].id == event.id then event else board.tasks[j])
  {
    var present := HasTaskId(board.tasks, event.id);
    board.(tasks :=
      if present then Map(board.tasks, (t: Task) => if t.id == event.id then event else t)
      else WithoutTask(board.tasks, event.id))
  }

  /**
   * The event record replaces, wholesale and in place, every task with its
   * id; every other task, every board id and title, and every length stay.
   * An event for an id no board holds changes nothing: it is never inserted.
   */
  function MergeEvent(boards: seq<Board>, event: Task): (r: seq<Board>)
    ensures |r| == |boards|
    ensures forall i :: 0 <= i < |boards| ==>
      r[i].id == boards[i].id && r[i].title == boards[i].title && |r[i].tasks| == |boards[i].tasks|
    ensures forall i, j :: 0 <= i < |boards| && 0 <= j < |boards[i].tasks| ==>
      r[i].tasks[j] == (if boards[i].tasks[j].id == event.id then event else boards[i].tasks[j])
    ensures !AnyBoardHas(boards, event.id) ==> r == boards
  {
    var r := Map(boards, (b: Board) => MergeIntoBoard(b, event));
    assert !AnyBoardHas(boards, event.id) ==> forall i :: 0 <= i < |boards| ==> r[i].tasks == boards[i].tasks;
    r
  }

  /** `onData`: a message without a task, or an empty cache, changes nothing. */
  function OnTaskUpdated(cache: Cache, event: Option<Task>): (r: Cache)
    ensures event.None? ==> r == cache
    ensures r.None? <==> cache.None?
    ensures event.Some? && cache.Some? ==> r.value == MergeEvent(cache.value, event.value)
  {
    match event
    case None => cache
    case Some(t) => UpdateBoards(cache, (boards: seq<Board>) => MergeEvent(boards, t))
  }

  // ---------------------------------------------------------------------
  // Move (the update function of the moveTask mutation)
  // ---------------------------------------------------------------------

  /**
   * Every task with the moved id gets the new status and keeps its id and
   * title; everything else, and every length and position, is unchanged.
   */
  function MoveTask(boards: seq<Board>, taskId: int, status: Status): (r: seq<Board>)
    ensures |r| == |boards|
    ensures forall i :: 0 <= i < |boards| ==>
      r[i].id == boards[i].id && r[i].title == boards[i].title && |r[i].tasks| == |boards[i].tasks|
    ensures forall i, j :: 0 <= i < |boards| && 0 <= j < |boards[i].tasks| ==>
      r[i].tasks[j] == (if boards[i].tasks[j].id == taskId
                        then Task(taskId, boards[i].tasks[j].title, status)
                        else boards[i].tasks[j])
  {
    Map(boards, (b: Board) =>
      b.(tasks := Map(b.tasks, (t: Task) => if t.id == taskId then t.(status := status) else t)))
  }

  /**
   * The update runs on the optimistic `true` and again on the server's
   * answer; it never reads the answer, so the cache ends the same either way.
   */
  function OnMoveResult(cache: Cache, taskId: int, status: Status, ack: Option<bool>): (r: Cache)
    ensures r.None? <==> cache.None?
    ensures cache.Some? ==> r.value == MoveTask(cache.value, taskId, status)
  {
    UpdateBoards(cache, (boards: seq<Board>) => MoveTask(boards, taskId, status))
  }

  // ---------------------------------------------------------------------
  // Create (the update function of the createTask mutation)
  // ---------------------------------------------------------------------

  /** The record the page appends: the server's id and title, status TODO. */
  function NewTask(created: CreatedTask): Task {
    Task(created.id, created.title, Todo)
  }

  /**
   * The created task is appended at the end of every board whose id is the
   * page's board id; every other board is unchanged.
   */
  function AppendCreated(boards: seq<Board>, boardId: int, created: CreatedTask): (r: seq<Board>)
    ensures |r| == |boards|
    ensures forall i :: 0 <= i < |boards| && boards[i].id != boardId ==> r[i] == boards[i]
    ensures forall i :: 0 <= i < |boards| && boards[i].id == boardId ==>
      r[i].id == boards[i].id && r[i].title == boards[i].title &&
      r[i].tasks == boards[i].tasks + [NewTask(created)]
  {
    Map(boards, (b: Board) =>
      if b.id == boardId then b.(tasks := b.tasks + [NewTask(created)]) else b)
  }

  /** A response without a `createTask` payload updates nothing. */
  function OnCreateResult(cache: Cache, boardId: int, response: Option<CreatedTask>): (r: Cache)
    ensures response.None? ==> r == cache
    ensures r.None? <==> cache.None?
    ensures response.Some? && cache.Some? ==>
      r.value == AppendCreated(cache.value, boardId, response.value)
  {
    match response
    case None => cache
    case Some(created) =>
      UpdateBoards(cache, (boards: seq<Board>) => AppendCreated(boards, boardId, created))
  }

  // ---------------------------------------------------------------------
  // Delete (the update function of the deleteTask mutation)
  // ---------------------------------------------------------------------

  /**
   * `tasks.filter((t) => Number(t.id) !== Number(id))`: the tasks of one
   * board without those carrying `id`. This is `Filter` with that predicate,
   * written out by recursion so that the lemmas about it can unfold it step
   * by step without relying on two lambda expressions being identical.
   */
  function WithoutTask(tasks: seq<Task>, id: int): (r: seq<Task>)
    ensures |r| <= |tasks|
    ensures forall t :: t in r <==> t in tasks && t.id != id
    ensures !HasTaskId(r, id)
    ensures !HasTaskId(tasks, id) ==> r == tasks
  {
    if tasks == [] then []
    else if tasks[0].id != id then [tasks[0]] + WithoutTask(tasks[1..], id)
    else WithoutTask(tasks[1..], id)
  }

  /**
   * Every task with the id disappears from every board; the survivors keep
   * their relative order and board ids and titles stay.
   */
  function DeleteTask(boards: seq<Board>, id: int): (r: seq<Board>)
    ensures |r| == |boards|
    ensures forall i :: 0 <= i < |boards| ==>
      r[i].id == boards[i].id && r[i].title == boards[i].title &&
      r[i].tasks == WithoutTask(boards[i].tasks, id)
    ensures !AnyBoardHas(r, id)
  {
    Map(boards, (b: Board) => b.(tasks := WithoutTask(b.tasks, id)))
  }

  /**
   * `if (!data?.deleteTask) return`: only an acknowledgment that is present
   * and true removes anything.
   */
  function OnDeleteResult(cache: Cache, id: int, ack: Option<bool>): (r: Cache)
    ensures ack != Some(true) ==> r == cache
    ensures r.None? <==> cache.None?
    ensures ack == Some(true) && cache.Some? ==> r.value == DeleteTask(cache.value, id)
  {
    if ack == Some(true) then UpdateBoards(cache, (boards: seq<Board>) => DeleteTask(boards, id))
    else cache
  }
}
