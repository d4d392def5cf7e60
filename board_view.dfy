/**
 * The small decisions around the cache updaters on the board page: which
 * board is shown and subscribed to, how its tasks split into columns, and
 * the guards that decide whether a drop or the "Add Task" action issues a
 * mutation at all.
 */
module BoardView {
  import opened ArrayMethods
  import opened BoardCache

  /** The mutations the page issues, with their GraphQL variables. */
  datatype Mutation =
    | Create(title: string, boardId: int)
    | Move(taskId: int, status: Status)

  /** What a user action yields: the mutation it issued, if any, and the cache after its update ran. */
  datatype Outcome = Outcome(issued: Option<Mutation>, cache: Cache)

  // ---------------------------------------------------------------------
  // The shown board and the subscription's variables
  // ---------------------------------------------------------------------

  /** The page shows "No boards", and the subscription is skipped, without data or without boards. */
  predicate NoBoards(data: Cache): (r: bool)
    ensures r <==> data.None? || data.value == []
  {
    data.None? || |data.value| == 0
  }

  /**
   * The subscription is skipped under the same condition as the "No boards"
   * return, and an event could change nothing then: with no boards cached
   * the merge leaves the cache as it is.
   */
  lemma SkipLosesNothing(cache: Cache, e: Option<Task>)
    requires NoBoards(cache)
    ensures OnTaskUpdated(cache, e) == cache
  {
  }

  /** The only board the page renders: the first one. */
  function ShownBoard(data: Cache): (r: Board)
    requires !NoBoards(data)
    ensures r in data.value && data.value == [r] + data.value[1..]
  {
    data.value[0]
  }

  /**
   * The subscription's `boardId` variable. The truthiness test on the first
   * board's id only matters when that id is 0, where both branches give 0,
   * so a live subscription is always scoped to the shown board.
   */
  function SubscriptionBoardId(data: Cache): (id: int)
    ensures !NoBoards(data) ==> id == ShownBoard(data).id
    ensures NoBoards(data) ==> id == 0
  {
    if data.Some? && |data.value| > 0 && data.value[0].id != 0 then data.value[0].id else 0
  }

  // ---------------------------------------------------------------------
  // Columns
  // ---------------------------------------------------------------------

  /** `board.tasks.filter((t) => t.status === col)`. */
  function ColumnTasks(tasks: seq<Task>, col: Status): (r: seq<Task>)
    ensures forall t :: t in r <==> t in tasks && t.status == col
    ensures |r| <= |tasks|
  {
    Filter(tasks, (t: Task) => t.status == col)
  }

  /** A task whose status is one of the three columns is shown in exactly that column. */
  lemma ExactlyOneColumn(tasks: seq<Task>, t: Task)
    requires t in tasks && t.status in Columns
    ensures t in ColumnTasks(tasks, t.status)
    ensures forall col :: col in Columns && col != t.status ==> t !in ColumnTasks(tasks, col)
  {
  }

  /**
   * When every status is one of the three columns, the columns together
   * hold every task exactly as often as the board does.
   */
  lemma {:induction false} ColumnsPartition(tasks: seq<Task>)
    requires forall j :: 0 <= j < |tasks| ==> tasks[j].status in Columns
    ensures multiset(ColumnTasks(tasks, Todo)) + multiset(ColumnTasks(tasks, InProgress))
            + multiset(ColumnTasks(tasks, Done)) == multiset(tasks)
  {
    if tasks != [] {
      var rest := tasks[1..];
      ColumnsPartition(rest);
      ColumnsCons(tasks);
      assert multiset(tasks) == multiset([tasks[0]]) + multiset(rest) by {
        assert tasks == [tasks[0]] + rest;
      }
    }
  }

  /** The three columns of a non-empty list: its head in one of them, then the columns of the rest. */
  lemma ColumnsCons(tasks: seq<Task>)
    requires tasks != [] && tasks[0].status in Columns
    ensures multiset(ColumnTasks(tasks, Todo)) + multiset(ColumnTasks(tasks, InProgress))
            + multiset(ColumnTasks(tasks, Done))
            == multiset([tasks[0]]) + multiset(ColumnTasks(tasks[1..], Todo))
               + multiset(ColumnTasks(tasks[1..], InProgress)) + multiset(ColumnTasks(tasks[1..], Done))
  {
    ColumnCons(tasks, Todo);
    ColumnCons(tasks, InProgress);
    ColumnCons(tasks, Done);
    StatusCases(tasks[0].status);
  }

  /** A status that is one of the columns is exactly one of them: the three names differ. */
  lemma StatusCases(st: Status)
    requires st in Columns
    ensures || (st == Todo && st != InProgress && st != Done)
            || (st == InProgress && st != Todo && st != Done)
            || (st == Done && st != Todo && st != InProgress)
  {
    assert Todo[0] != Done[0] && |Todo| != |InProgress| && |Done| != |InProgress|;
  }

  /** The column of a non-empty list: its head, if it belongs, then the column of the rest. */
  lemma ColumnCons(tasks: seq<Task>, col: Status)
    requires tasks != []
    ensures multiset(ColumnTasks(tasks, col)) ==
      (if tasks[0].status == col then multiset([tasks[0]]) else multiset{}) + multiset(ColumnTasks(tasks[1..], col))
  {
  }

  /** Each column keeps the board's order: columns of a concatenation concatenate. */
  lemma ColumnKeepsOrder(a: seq<Task>, b: seq<Task>, col: Status)
    ensures ColumnTasks(a + b, col) == ColumnTasks(a, col) + ColumnTasks(b, col)
  {
    FilterAppend(a, b, (t: Task) => t.status == col);
  }

  // ---------------------------------------------------------------------
  // Drag and drop
  // ---------------------------------------------------------------------

  /**
   * `handleDragEnd`: a drop outside every column (`over` is null) issues
   * nothing and leaves the cache alone. A drop on a column issues a move of
   * the dragged task to that column, and the optimistic update puts every
   * card with that id into the dropped column, keeping it out of the others.
   */
  function HandleDragEnd(cache: Cache, active: int, over: Option<Status>): (r: Outcome)
    ensures over.None? ==> r == Outcome(None, cache)
    ensures over.Some? ==> r.issued == Some(Move(active, over.value))
    ensures r.cache.None? <==> cache.None?
    ensures over.Some? && cache.Some? ==> r.cache.value == MoveTask(cache.value, active, over.value)
    ensures cache.Some? ==> |r.cache.value| == |cache.value|
    ensures over.Some? && cache.Some? ==>
      forall i, t :: 0 <= i < |cache.value| && t in cache.value[i].tasks && t.id == active ==>
        t.(status := over.value) in ColumnTasks(r.cache.value[i].tasks, over.value)
    ensures over.Some? && cache.Some? ==>
      forall i, col, t ::
        (0 <= i < |cache.value| && col != over.value && t in ColumnTasks(r.cache.value[i].tasks, col))
        ==> t.id != active
  {
    match over
    case None => Outcome(None, cache)
    case Some(col) =>
      var after := OnMoveResult(cache, active, col, Some(true));
      if cache.Some? then
        MovedCards(cache.value, active, col);
        Outcome(Some(Move(active, col)), after)
      else
        Outcome(Some(Move(active, col)), after)
  }

  /** After the move update every card with the id is in the target column and in no other. */
  lemma MovedCards(boards: seq<Board>, active: int, col: Status)
    ensures var after := MoveTask(boards, active, col);
      && (forall i, t :: 0 <= i < |boards| && t in boards[i].tasks && t.id == active ==>
            t.(status := col) in after[i].tasks)
      && (forall i, t :: 0 <= i < |boards| && t in after[i].tasks && t.id == active ==> t.status == col)
  {
    var after := MoveTask(boards, active, col);
    forall i, t | 0 <= i < |boards| && t in boards[i].tasks && t.id == active
      ensures t.(status := col) in after[i].tasks
    {
      var j :| 0 <= j < |boards[i].tasks| && boards[i].tasks[j] == t;
      assert after[i].tasks[j] == t.(status := col);
    }
    forall i, t | 0 <= i < |boards| && t in after[i].tasks && t.id == active
      ensures t.status == col
    {
      var j :| 0 <= j < |after[i].tasks| && after[i].tasks[j] == t;
    }
  }

  // ---------------------------------------------------------------------
  // Creating a task
  // ---------------------------------------------------------------------

  /** ECMAScript's WhiteSpace and LineTerminator code points: what `trim()` strips. */
  predicate IsWhiteSpace(c: char) {
    || c == '\t' || c == '\n' || c == '\U{B}' || c == '\U{C}' || c == '\r' || c == ' '
    || c == '\U{A0}' || c == '\U{1680}' || ('\U{2000}' <= c <= '\U{200A}')
    || c == '\U{2028}' || c == '\U{2029}' || c == '\U{202F}' || c == '\U{205F}'
    || c == '\U{3000}' || c == '\U{FEFF}'
  }

  /** Empty or white space only. */
  predicate IsBlank(s: string) {
    forall i :: 0 <= i < |s| ==> IsWhiteSpace(s[i])
  }

  /** A white-space character in front of a blank string keeps it blank. */
  lemma BlankCons(c: char, t: string)
    requires IsWhiteSpace(c) && IsBlank(t)
    ensures IsBlank([c] + t)
  {
    assert forall i :: 1 <= i < |t| + 1 ==> ([c] + t)[i] == t[i - 1];
  }

  /** A white-space character after a blank string keeps it blank. */
  lemma BlankSnoc(t: string, c: char)
    requires IsBlank(t) && IsWhiteSpace(c)
    ensures IsBlank(t + [c])
  {
    assert forall i :: 0 <= i < |t| ==> (t + [c])[i] == t[i];
  }

  /** Drops leading white space: what is dropped is a blank prefix. */
  function TrimStart(s: string): (r: string)
    ensures |r| <= |s| && s == s[..|s| - |r|] + r
    ensures IsBlank(s[..|s| - |r|])
    ensures r != [] ==> !IsWhiteSpace(r[0])
  {
    if s != [] && IsWhiteSpace(s[0]) then
      var r := TrimStart(s[1..]);
      TrimStartStep(s, r);
      r
    else s
  }

  /** One step of `TrimStart`: a blank character in front of what the rest drops is dropped too. */
  lemma TrimStartStep(s: string, r: string)
    requires s != [] && IsWhiteSpace(s[0])
    requires |r| <= |s| - 1 && s[1..] == s[1..][..|s| - 1 - |r|] + r
    requires IsBlank(s[1..][..|s| - 1 - |r|])
    ensures s == s[..|s| - |r|] + r
    ensures IsBlank(s[..|s| - |r|])
  {
    var pre := s[1..][..|s| - 1 - |r|];
    assert s[..|s| - |r|] == [s[0]] + pre;
    BlankCons(s[0], pre);
  }

  /** Drops trailing white space: what is dropped is a blank suffix. */
  function TrimEnd(s: string): (r: string)
    ensures |r| <= |s| && s == r + s[|r|..]
    ensures IsBlank(s[|r|..])
    ensures r != [] ==> !IsWhiteSpace(r[|r| - 1])
  {
    if s != [] && IsWhiteSpace(s[|s| - 1]) then
      var r := TrimEnd(s[..|s| - 1]);
      TrimEndStep(s, r);
      r
    else s
  }

  /** One step of `TrimEnd`: a blank character after what the rest drops is dropped too. */
  lemma TrimEndStep(s: string, r: string)
    requires s != [] && IsWhiteSpace(s[|s| - 1])
    requires |r| <= |s| - 1 && s[..|s| - 1] == r + s[..|s| - 1][|r|..]
    requires IsBlank(s[..|s| - 1][|r|..])
    ensures s == r + s[|r|..]
    ensures IsBlank(s[|r|..])
  {
    var post := s[..|s| - 1][|r|..];
    assert s[|r|..] == post + [s[|s| - 1]];
    BlankSnoc(post, s[|s| - 1]);
  }

  /**
   * `String.prototype.trim`: the input with a blank prefix and a blank
   * suffix cut off, so empty exactly when the string is blank.
   */
  function Trim(s: string): (r: string)
    ensures exists pre, post :: s == pre + r + post && IsBlank(pre) && IsBlank(post)
    ensures r == [] <==> IsBlank(s)
    ensures r != [] ==> !IsWhiteSpace(r[0]) && !IsWhiteSpace(r[|r| - 1])
  {
    var head := TrimStart(s);
    var r := TrimEnd(head);
    TrimSplit(s[..|s| - |head|], head, r, head[|r|..], s);
    r
  }

  /** Cutting a prefix off `s` and then a suffix off what remains leaves `s` split in three. */
  lemma TrimSplit(pre: string, head: string, r: string, post: string, s: string)
    requires s == pre + head && head == r + post
    requires IsBlank(pre) && IsBlank(post)
    requires r != [] ==> !IsWhiteSpace(r[0])
    ensures s == pre + r + post
    ensures r == [] <==> IsBlank(s)
  {
    assert pre + head == pre + r + post;
    TrimEmpty(pre, r, post);
  }

  /** A string split around a part that starts with a non-blank is blank exactly when that part is empty. */
  lemma TrimEmpty(pre: string, r: string, post: string)
    requires IsBlank(pre) && IsBlank(post)
    requires r != [] ==> !IsWhiteSpace(r[0])
    ensures r == [] <==> IsBlank(pre + r + post)
  {
    if r != [] {
      assert (pre + r + post)[|pre|] == r[0];
    } else {
      assert pre + r + post == pre + post;
    }
  }

  /**
   * `handleCreateTask`: a blank title issues nothing and leaves the input as
   * it is; any other title issues a create with the title as typed (not
   * trimmed) for the shown board, and the input is cleared. The handler
   * only exists once the page has a board to show.
   */
  function HandleCreateTask(data: Cache, title: string): (r: (Option<Mutation>, string))
    requires !NoBoards(data)
    ensures r.0.None? <==> IsBlank(title)
    ensures r.0.None? ==> r.1 == title
    ensures r.0.Some? ==> r.0.value == Create(title, ShownBoard(data).id) && r.1 == []
  {
    if Trim(title) == [] then (None, title) else (Some(Create(title, ShownBoard(data).id)), [])
  }
}
