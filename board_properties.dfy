/**
 * What the four cache updaters guarantee when applied more than once, in
 * sequence, or to a cache whose task ids are unique across all boards.
 */
module BoardProperties {
  import opened BoardCache

  /** Every task id occurs once in the whole cache, in one board at one position. */
  ghost predicate UniqueTaskIds(boards: seq<Board>) {
    forall i, j, k, l ::
      (0 <= i < |boards| && 0 <= j < |boards[i].tasks| &&
       0 <= k < |boards| && 0 <= l < |boards[k].tasks| &&
       boards[i].tasks[j].id == boards[k].tasks[l].id)
      ==> i == k && j == l
  }

  /** The ids of one task list are pairwise different. */
  ghost predicate DistinctIds(tasks: seq<Task>) {
    forall j, l :: 0 <= j < l < |tasks| ==> tasks[j].id != tasks[l].id
  }

  /** Two caches that agree board by board, field by field, are equal. */
  lemma BoardsEqual(a: seq<Board>, b: seq<Board>)
    requires |a| == |b|
    requires forall i :: 0 <= i < |a| ==> a[i].id == b[i].id && a[i].title == b[i].title
    requires forall i :: 0 <= i < |a| ==> |a[i].tasks| == |b[i].tasks|
    requires forall i, j :: 0 <= i < |a| && 0 <= j < |a[i].tasks| ==> a[i].tasks[j] == b[i].tasks[j]
    ensures a == b
  {
    forall i | 0 <= i < |a| ensures a[i] == b[i] {
      assert a[i].tasks == b[i].tasks;
    }
  }

  // ---------------------------------------------------------------------
  // Push-event merge
  // ---------------------------------------------------------------------

  /** At-least-once delivery is harmless: a repeated event changes nothing more. */
  lemma MergeIdempotent(boards: seq<Board>, event: Task)
    ensures MergeEvent(MergeEvent(boards, event), event) == MergeEvent(boards, event)
  {
    var once := MergeEvent(boards, event);
    BoardsEqual(MergeEvent(once, event), once);
  }

  /** A merge never adds or drops a task: the id at every position stays. */
  lemma MergeKeepsIds(boards: seq<Board>, event: Task)
    ensures forall i, j :: 0 <= i < |boards| && 0 <= j < |boards[i].tasks| ==>
      MergeEvent(boards, event)[i].tasks[j].id == boards[i].tasks[j].id
  {
  }

  /** A merge keeps ids unique across the cache. */
  lemma MergePreservesUniqueIds(boards: seq<Board>, event: Task)
    requires UniqueTaskIds(boards)
    ensures UniqueTaskIds(MergeEvent(boards, event))
  {
    SameIdsKeepUnique(boards, MergeEvent(boards, event));
  }

  /**
   * An event that arrives before the create response for the same task is
   * dropped; the created task then appears with the server's title and TODO.
   */
  lemma EventBeforeCreateIsDropped(boards: seq<Board>, boardId: int, created: CreatedTask, event: Task)
    requires event.id == created.id && !AnyBoardHas(boards, created.id)
    ensures AppendCreated(MergeEvent(boards, event), boardId, created) == AppendCreated(boards, boardId, created)
  {
  }

  /**
   * An event that arrives after the create response takes the created
   * task's place at the end of its board: the task is not shown twice.
   */
  lemma EventAfterCreateReplaces(boards: seq<Board>, boardId: int, created: CreatedTask, event: Task)
    requires event.id == created.id && !AnyBoardHas(boards, created.id)
    ensures var r := MergeEvent(AppendCreated(boards, boardId, created), event);
      |r| == |boards| &&
      forall i :: 0 <= i < |boards| ==>
        r[i] == if boards[i].id == boardId then boards[i].(tasks := boards[i].tasks + [event]) else boards[i]
  {
    var a := AppendCreated(boards, boardId, created);
    var r := MergeEvent(a, event);
    forall i | 0 <= i < |boards|
      ensures r[i] == if boards[i].id == boardId then boards[i].(tasks := boards[i].tasks + [event]) else boards[i]
    {
      var want := if boards[i].id == boardId then boards[i].(tasks := boards[i].tasks + [event]) else boards[i];
      forall j | 0 <= j < |boards[i].tasks| ensures r[i].tasks[j] == want.tasks[j] {
        assert a[i].tasks[j] == boards[i].tasks[j];
      }
      assert r[i].tasks == want.tasks;
    }
  }

  // ---------------------------------------------------------------------
  // Move
  // ---------------------------------------------------------------------

  /** The move updater is idempotent: running it again with the same id and status changes nothing. */
  lemma MoveIdempotent(boards: seq<Board>, taskId: int, status: Status)
    ensures MoveTask(MoveTask(boards, taskId, status), taskId, status) == MoveTask(boards, taskId, status)
  {
    var once := MoveTask(boards, taskId, status);
    BoardsEqual(MoveTask(once, taskId, status), once);
  }

  /** Moving an id no board holds leaves the cache as it is. */
  lemma MoveAbsentIsNoop(boards: seq<Board>, taskId: int, status: Status)
    requires !AnyBoardHas(boards, taskId)
    ensures MoveTask(boards, taskId, status) == boards
  {
    BoardsEqual(MoveTask(boards, taskId, status), boards);
  }

  /** Moving a task to the status it already has leaves the cache as it is. */
  lemma MoveToCurrentStatusIsNoop(boards: seq<Board>, taskId: int, status: Status)
    requires forall i, j :: 0 <= i < |boards| && 0 <= j < |boards[i].tasks| && boards[i].tasks[j].id == taskId ==>
      boards[i].tasks[j].status == status
    ensures MoveTask(boards, taskId, status) == boards
  {
    BoardsEqual(MoveTask(boards, taskId, status), boards);
  }

  /** A move keeps ids unique across the cache. */
  lemma MovePreservesUniqueIds(boards: seq<Board>, taskId: int, status: Status)
    requires UniqueTaskIds(boards)
    ensures UniqueTaskIds(MoveTask(boards, taskId, status))
  {
    SameIdsKeepUnique(boards, MoveTask(boards, taskId, status));
  }

  /** A move and an event about a different task touch disjoint tasks: their order does not matter. */
  lemma MoveCommutesWithOtherEvent(boards: seq<Board>, taskId: int, status: Status, event: Task)
    requires event.id != taskId
    ensures MoveTask(MergeEvent(boards, event), taskId, status) == MergeEvent(MoveTask(boards, taskId, status), event)
  {
    var merged := MergeEvent(boards, event);
    var moved := MoveTask(boards, taskId, status);
    var a := MoveTask(merged, taskId, status);
    var b := MergeEvent(moved, event);
    forall i, j | 0 <= i < |boards| && 0 <= j < |boards[i].tasks| ensures a[i].tasks[j] == b[i].tasks[j] {
      var t := boards[i].tasks[j];
      assert merged[i].tasks[j] == if t.id == event.id then event else t;
      assert moved[i].tasks[j] == if t.id == taskId then Task(taskId, t.title, status) else t;
    }
    BoardsEqual(a, b);
  }

  // ---------------------------------------------------------------------
  // Create
  // ---------------------------------------------------------------------

  /** A response for a board id the cache does not hold changes nothing. */
  lemma CreateForUnknownBoardIsNoop(boards: seq<Board>, boardId: int, created: CreatedTask)
    requires forall i :: 0 <= i < |boards| ==> boards[i].id != boardId
    ensures AppendCreated(boards, boardId, created) == boards
  {
  }

  /**
   * A create for a fresh id in a cache with one board of that board id
   * keeps task ids unique across the cache.
   */
  lemma CreatePreservesUniqueIds(boards: seq<Board>, boardId: int, created: CreatedTask)
    requires UniqueTaskIds(boards)
    requires !AnyBoardHas(boards, created.id)
    requires forall i, k :: 0 <= i < k < |boards| && boards[i].id == boardId ==> boards[k].id != boardId
    ensures UniqueTaskIds(AppendCreated(boards, boardId, created))
  {
    var r := AppendCreated(boards, boardId, created);
    forall i, j, k, l |
      0 <= i < |r| && 0 <= j < |r[i].tasks| && 0 <= k < |r| && 0 <= l < |r[k].tasks| &&
      r[i].tasks[j].id == r[k].tasks[l].id
      ensures i == k && j == l
    {
      if j < |boards[i].tasks| {
        assert r[i].tasks[j] == boards[i].tasks[j];
      }
      if l < |boards[k].tasks| {
        assert r[k].tasks[l] == boards[k].tasks[l];
      }
    }
  }

  /** Deleting the created task takes the cache back to where deleting it started. */
  lemma {:induction false} DeleteUndoesCreate(boards: seq<Board>, boardId: int, created: CreatedTask)
    ensures DeleteTask(AppendCreated(boards, boardId, created), created.id) == DeleteTask(boards, created.id)
  {
    var a := AppendCreated(boards, boardId, created);
    forall i | 0 <= i < |boards|
      ensures DeleteTask(a, created.id)[i] == DeleteTask(boards, created.id)[i]
    {
      if boards[i].id == boardId {
        WithoutTaskAppend(boards[i].tasks, [NewTask(created)], created.id);
        assert WithoutTask([NewTask(created)], created.id) == [];
      }
    }
  }

  /** When the created id was not cached before, deleting it restores the cache exactly. */
  lemma DeleteUndoesFreshCreate(boards: seq<Board>, boardId: int, created: CreatedTask)
    requires !AnyBoardHas(boards, created.id)
    ensures DeleteTask(AppendCreated(boards, boardId, created), created.id) == boards
  {
    DeleteUndoesCreate(boards, boardId, created);
    DeleteAbsentIsNoop(boards, created.id);
  }

  // ---------------------------------------------------------------------
  // Delete
  // ---------------------------------------------------------------------

  /** Removing an id keeps the survivors' relative order (`FilterAppend` for this predicate). */
  lemma {:induction false} WithoutTaskAppend(a: seq<Task>, b: seq<Task>, id: int)
    ensures WithoutTask(a + b, id) == WithoutTask(a, id) + WithoutTask(b, id)
  {
    if a == [] {
      assert a + b == b;
    } else {
      assert (a + b)[0] == a[0];
      assert (a + b)[1..] == a[1..] + b;
      WithoutTaskAppend(a[1..], b, id);
    }
  }

  /** Removing from a list with distinct ids keeps the ids distinct. */
  lemma {:induction false} WithoutTaskDistinct(tasks: seq<Task>, id: int)
    requires DistinctIds(tasks)
    ensures DistinctIds(WithoutTask(tasks, id))
  {
    if tasks != [] {
      WithoutTaskDistinct(tasks[1..], id);
      var rest := WithoutTask(tasks[1..], id);
      forall t | t in rest ensures t.id != tasks[0].id {
        var l :| 0 <= l < |tasks[1..]| && tasks[1..][l] == t;
        assert tasks[l + 1] == t;
      }
    }
  }

  /** With unique ids, a board that holds the id loses exactly that one task. */
  lemma {:induction false} WithoutTaskRemovesOne(tasks: seq<Task>, id: int)
    requires DistinctIds(tasks)
    ensures |WithoutTask(tasks, id)| == if HasTaskId(tasks, id) then |tasks| - 1 else |tasks|
  {
    if tasks != [] {
      WithoutTaskRemovesOne(tasks[1..], id);
      if tasks[0].id == id {
        assert !HasTaskId(tasks[1..], id) by {
          forall l | 0 <= l < |tasks[1..]| ensures tasks[1..][l].id != id {
            assert tasks[1..][l] == tasks[l + 1];
          }
        }
      } else {
        assert HasTaskId(tasks, id) == HasTaskId(tasks[1..], id) by {
          if HasTaskId(tasks, id) {
            var j :| 0 <= j < |tasks| && tasks[j].id == id;
            assert tasks[1..][j - 1] == tasks[j];
          }
        }
      }
    }
  }

  /** The delete update with a true answer is idempotent. */
  lemma DeleteIdempotent(boards: seq<Board>, id: int)
    ensures DeleteTask(DeleteTask(boards, id), id) == DeleteTask(boards, id)
  {
  }

  /** Deleting an id no board holds leaves the cache as it is. */
  lemma DeleteAbsentIsNoop(boards: seq<Board>, id: int)
    requires !AnyBoardHas(boards, id)
    ensures DeleteTask(boards, id) == boards
  {
  }

  /** A delete keeps ids unique across the cache. */
  lemma DeletePreservesUniqueIds(boards: seq<Board>, id: int)
    requires UniqueTaskIds(boards)
    ensures UniqueTaskIds(DeleteTask(boards, id))
  {
    var r := DeleteTask(boards, id);
    forall i | 0 <= i < |boards| ensures DistinctIds(r[i].tasks) {
      UniqueWithinBoard(boards, i);
      WithoutTaskDistinct(boards[i].tasks, id);
    }
    forall i, k, t, u | 0 <= i < |r| && 0 <= k < |r| && i != k && t in r[i].tasks && u in r[k].tasks
      ensures t.id != u.id
    {
      UniqueAcrossBoards(boards, i, k, t, u);
    }
    UniqueFromParts(r);
  }

  // ---------------------------------------------------------------------
  // Unique ids, board by board
  // ---------------------------------------------------------------------

  /** Two caches of the same shape with the same id at every position are unique together. */
  lemma SameIdsKeepUnique(a: seq<Board>, b: seq<Board>)
    requires UniqueTaskIds(a)
    requires |a| == |b|
    requires forall i :: 0 <= i < |a| ==> |a[i].tasks| == |b[i].tasks|
    requires forall i, j :: 0 <= i < |a| && 0 <= j < |a[i].tasks| ==> b[i].tasks[j].id == a[i].tasks[j].id
    ensures UniqueTaskIds(b)
  {
  }

  /** Unique ids across the cache are distinct within each board. */
  lemma UniqueWithinBoard(boards: seq<Board>, i: int)
    requires UniqueTaskIds(boards) && 0 <= i < |boards|
    ensures DistinctIds(boards[i].tasks)
  {
  }

  /** Unique ids across the cache never meet on two different boards. */
  lemma UniqueAcrossBoards(boards: seq<Board>, i: int, k: int, t: Task, u: Task)
    requires UniqueTaskIds(boards)
    requires 0 <= i < |boards| && 0 <= k < |boards| && i != k
    requires t in boards[i].tasks && u in boards[k].tasks
    ensures t.id != u.id
  {
    var j :| 0 <= j < |boards[i].tasks| && boards[i].tasks[j] == t;
    var l :| 0 <= l < |boards[k].tasks| && boards[k].tasks[l] == u;
  }

  /** Ids distinct within each board and never shared between boards are unique across the cache. */
  lemma UniqueFromParts(boards: seq<Board>)
    requires forall i :: 0 <= i < |boards| ==> DistinctIds(boards[i].tasks)
    requires forall i, k, t, u :: (0 <= i < |boards| && 0 <= k < |boards| && i != k &&
      t in boards[i].tasks && u in boards[k].tasks) ==> t.id != u.id
    ensures UniqueTaskIds(boards)
  {
  }
}
