/**
 * The task board: tasks grouped into three status columns, and the
 * drag-and-drop handler that moves a card within its column (a reorder) or
 * to another column (a status change), updating the board before the server
 * confirms and restoring the previous board if the `PATCH` fails.
 *
 * The drag library's container ids are taken to be the column statuses, as
 * the handler's cast takes for granted.
 */
module TasksBoard {
  import opened Wrappers
  import opened JsArrays

  datatype Status = Todo | InProgress | Done
  datatype Priority = Low | Medium | High

  datatype Task = Task(
    id: string,
    title: string,
    description: Option<string>,
    status: Status,
    priority: Priority,
    dueDate: Option<string>,
    createdAt: string,
    messageId: Option<string>)

  predicate InColumn(t: Task, s: Status) {
    t.status == s
  }

  predicate NotInColumn(t: Task, s: Status) {
    t.status != s
  }

  predicate HasId(t: Task, id: string) {
    t.id == id
  }

  /** The tasks of one column, in board order. */
  function Column(tasks: seq<Task>, s: Status): (r: seq<Task>)
    ensures forall k :: 0 <= k < |r| ==> r[k].status == s
  {
    Filter(tasks, t => InColumn(t, s))
  }

  // ---------------------------------------------------------------------------
  // arrayMove
  // ---------------------------------------------------------------------------

  /** Where `arrayMove` puts the element: a negative target counts from the end. */
  function MovePos(n: nat, to: int): (pos: nat)
    requires 0 < n && -1 <= to < n
    ensures pos < n
  {
    if to < 0 then n + to else to
  }

  /** The element `arrayMove` puts at position `k` when it moves `from` to `pos`. */
  function MovedAt<T>(a: seq<T>, from: nat, pos: nat, k: nat): T
    requires from < |a| && pos < |a| && k < |a|
  {
    if k == pos then a[from]
    else
      var m := if k < pos then k else k - 1;
      if m < from then a[m] else a[m + 1]
  }

  /**
   * `arrayMove(a, from, to)`: the element at `from` is taken out and put back
   * at `to`; a target of -1 (no card under the pointer) means the end.
   */
  function ArrayMove<T>(a: seq<T>, from: nat, to: int): (r: seq<T>)
    requires from < |a| && -1 <= to < |a|
    ensures |r| == |a| && multiset(r) == multiset(a)
    ensures r[MovePos(|a|, to)] == a[from]
  {
    var pos := MovePos(|a|, to);
    ArrayMoveIsSplice(a, from, pos);
    seq(|a|, k requires 0 <= k < |a| => MovedAt(a, from, pos, k))
  }

  /**
   * The library's own definition: remove the element with `splice(from, 1)`,
   * then insert it with `splice(pos, 0, element)`. Moving keeps every element.
   */
  lemma ArrayMoveIsSplice<T>(a: seq<T>, from: nat, pos: nat)
    requires from < |a| && pos < |a|
    ensures var rest := a[..from] + a[from + 1..];
            var r := seq(|a|, k requires 0 <= k < |a| => MovedAt(a, from, pos, k));
            && r == rest[..pos] + [a[from]] + rest[pos..]
            && multiset(r) == multiset(a)
  {
    var rest := a[..from] + a[from + 1..];
    var r := seq(|a|, k requires 0 <= k < |a| => MovedAt(a, from, pos, k));
    var spliced := rest[..pos] + [a[from]] + rest[pos..];
    forall k | 0 <= k < |a| ensures r[k] == spliced[k] {
      if k < pos {
        assert spliced[k] == rest[k];
      } else if k > pos {
        assert spliced[k] == rest[k - 1];
      }
    }
    assert r == spliced;
    SpliceKeepsElements(a, from, pos);
  }

  /** Taking an element out and putting it back elsewhere keeps the multiset. */
  lemma SpliceKeepsElements<T>(a: seq<T>, from: nat, pos: nat)
    requires from < |a| && pos < |a|
    ensures var rest := a[..from] + a[from + 1..];
            multiset(rest[..pos] + [a[from]] + rest[pos..]) == multiset(a)
  {
    var rest := a[..from] + a[from + 1..];
    assert a == a[..from] + [a[from]] + a[from + 1..];
    assert multiset(a) == multiset(rest) + multiset{a[from]};
    assert rest == rest[..pos] + rest[pos..];
  }

  /** Every position of the moved sequence, spelled out. */
  lemma ArrayMoveAt<T>(a: seq<T>, from: nat, to: int, k: nat)
    requires from < |a| && -1 <= to < |a| && k < |a|
    ensures var pos := MovePos(|a|, to);
            var m := if k < pos then k else k - 1;
            ArrayMove(a, from, to)[k] == if k == pos then a[from] else if m < from then a[m] else a[m + 1]
  {
  }

  /** Moving an element from `i` to `j` and back from `j` to `i` restores the column. */
  lemma ArrayMoveBack<T>(a: seq<T>, i: nat, j: nat)
    requires i < |a| && j < |a|
    ensures ArrayMove(ArrayMove(a, i, j), j, i) == a
  {
    var c := ArrayMove(ArrayMove(a, i, j), j, i);
    forall k | 0 <= k < |a| ensures c[k] == a[k] {
      ArrayMoveBackAt(a, i, j, k);
    }
  }

  /** One position of the round trip. */
  lemma ArrayMoveBackAt<T>(a: seq<T>, i: nat, j: nat, k: nat)
    requires i < |a| && j < |a| && k < |a|
    ensures ArrayMove(ArrayMove(a, i, j), j, i)[k] == a[k]
  {
    var b := ArrayMove(a, i, j);
    ArrayMoveAt(b, j, i, k);
    var m := if k < i then k else k - 1;
    if k == i {
      assert ArrayMove(b, j, i)[k] == b[j];
      ArrayMoveAt(a, i, j, j);
    } else {
      var n := if m < j then m else m + 1;
      assert ArrayMove(b, j, i)[k] == b[n];
      ArrayMoveAt(a, i, j, n);
    }
  }

  // ---------------------------------------------------------------------------
  // Columns
  // ---------------------------------------------------------------------------

  /** Each task is in exactly the column of its status. */
  lemma ColumnMembers(tasks: seq<Task>, s: Status, t: Task)
    ensures t in Column(tasks, s) <==> t in tasks && t.status == s
  {
    FilterMembers(tasks, t => InColumn(t, s), t);
  }

  /** Every column keeps the board order. */
  lemma ColumnInOrder(tasks: seq<Task>, s: Status)
    ensures IsSubsequence(Column(tasks, s), tasks)
  {
    FilterIsSubsequence(tasks, t => InColumn(t, s));
  }

  /** Appending a task to the board appends it to the column of its status only. */
  lemma ColumnSnoc(tasks: seq<Task>, task: Task, s: Status)
    ensures Column(tasks + [task], s) == Column(tasks, s) + (if task.status == s then [task] else [])
  {
    FilterAppend(tasks, [task], t => InColumn(t, s));
    assert [task][1..] == [];
  }

  /** The first task of the board heads the column of its status and no other. */
  lemma ColumnCons(tasks: seq<Task>, s: Status)
    requires tasks != []
    ensures Column(tasks, s) == (if tasks[0].status == s then [tasks[0]] else []) + Column(tasks[1..], s)
  {
  }

  /** The three columns' tasks, counted with multiplicity. */
  ghost function InColumns(tasks: seq<Task>): multiset<Task> {
    multiset(Column(tasks, Todo)) + multiset(Column(tasks, InProgress)) + multiset(Column(tasks, Done))
  }

  /** The first task lands in exactly one column. */
  lemma InColumnsCons(tasks: seq<Task>)
    requires tasks != []
    ensures InColumns(tasks) == multiset{tasks[0]} + InColumns(tasks[1..])
  {
    ColumnCons(tasks, Todo);
    ColumnCons(tasks, InProgress);
    ColumnCons(tasks, Done);
  }

  /** A board's tasks are its first task and the rest. */
  lemma HeadTail(tasks: seq<Task>)
    requires tasks != []
    ensures multiset(tasks) == multiset{tasks[0]} + multiset(tasks[1..])
  {
    assert tasks == [tasks[0]] + tasks[1..];
  }

  /** The three columns together hold every task exactly once. */
  lemma {:induction false} ColumnsPartition(tasks: seq<Task>)
    ensures InColumns(tasks) == multiset(tasks)
  {
    if tasks != [] {
      ColumnsPartition(tasks[1..]);
      InColumnsCons(tasks);
      HeadTail(tasks);
    }
  }

  /** The three column sizes add up to the number of tasks. */
  lemma ColumnSizes(tasks: seq<Task>)
    ensures |Column(tasks, Todo)| + |Column(tasks, InProgress)| + |Column(tasks, Done)| == |tasks|
  {
    ColumnsPartition(tasks);
    assert |InColumns(tasks)| == |multiset(tasks)|;
  }

  /** A column and the tasks outside it together are the whole board. */
  lemma {:induction false} SplitByColumn(tasks: seq<Task>, s: Status)
    ensures multiset(Filter(tasks, t => NotInColumn(t, s))) + multiset(Column(tasks, s)) == multiset(tasks)
  {
    if tasks != [] {
      SplitByColumn(tasks[1..], s);
      ColumnCons(tasks, s);
      HeadTail(tasks);
    }
  }

  /** The grouping `tasksByColumn` builds. */
  datatype Grouped = Grouped(todo: seq<Task>, inProgress: seq<Task>, done: seq<Task>)

  function Get(g: Grouped, s: Status): seq<Task> {
    match s
    case Todo => g.todo
    case InProgress => g.inProgress
    case Done => g.done
  }

  /** Drag event data: the dragged card, its container, and the target under the pointer. */
  datatype Target = Target(id: string, container: Status)
  datatype DragEvent = DragEvent(activeId: string, activeContainer: Status, over: Option<Target>)

  /** The `PATCH /api/tasks/:id` request body. */
  datatype PatchRequest = PatchRequest(taskId: string, status: Status)

  /** A drag the handler acts on: a target other than the card itself, and a known card. */
  predicate Acts(tasks: seq<Task>, e: DragEvent) {
    e.over.Some? && e.activeId != e.over.value.id && FindIndex(tasks, t => HasId(t, e.activeId)) != -1
  }

  /** The drag library only reports a card as active in the container of its own status. */
  predicate WellFormedDrag(tasks: seq<Task>, e: DragEvent) {
    forall k :: 0 <= k < |tasks| && tasks[k].id == e.activeId ==> tasks[k].status == e.activeContainer
  }

  /** The board shown right after the drop, before the server answers. */
  function Optimistic(tasks: seq<Task>, e: DragEvent): (r: seq<Task>)
    requires Acts(tasks, e) && WellFormedDrag(tasks, e)
    ensures e.activeContainer != e.over.value.container ==> |r| == |tasks|
  {
    var i := FindIndex(tasks, t => HasId(t, e.activeId));
    var target := e.over.value;
    if e.activeContainer == target.container then
      var column := Column(tasks, e.activeContainer);
      ColumnMembers(tasks, e.activeContainer, tasks[i]);
      var oldIndex := FindIndex(column, t => HasId(t, e.activeId));
      var newIndex := FindIndex(column, t => HasId(t, target.id));
      Filter(tasks, t => NotInColumn(t, e.activeContainer)) + ArrayMove(column, oldIndex, newIndex)
    else
      tasks[i := tasks[i].(status := target.container)]
  }

  /** A move to another column changes only that card's status, in place. */
  lemma CrossColumnChangesOneStatus(tasks: seq<Task>, e: DragEvent)
    requires Acts(tasks, e) && WellFormedDrag(tasks, e)
    requires e.activeContainer != e.over.value.container
    ensures var r := Optimistic(tasks, e);
            var i := FindIndex(tasks, t => HasId(t, e.activeId));
            && |r| == |tasks|
            && r[i].status == e.over.value.container && r[i] == tasks[i].(status := r[i].status)
            && forall k :: 0 <= k < |tasks| && k != i ==> r[k] == tasks[k]
  {
  }

  /**
   * A reorder inside a column: the other columns' cards first, in their order,
   * then the column with the card moved; no card is lost or duplicated.
   */
  lemma SameColumnReorders(tasks: seq<Task>, e: DragEvent)
    requires Acts(tasks, e) && WellFormedDrag(tasks, e)
    requires e.activeContainer == e.over.value.container
    ensures var r := Optimistic(tasks, e);
            var others := Filter(tasks, t => NotInColumn(t, e.activeContainer));
            var column := Column(tasks, e.activeContainer);
            && multiset(r) == multiset(tasks)
            && r[..|others|] == others
            && multiset(r[|others|..]) == multiset(column)
            && forall k :: |others| <= k < |r| ==> r[k].status == e.activeContainer
  {
    var r := Optimistic(tasks, e);
    var others := Filter(tasks, t => NotInColumn(t, e.activeContainer));
    var column := Column(tasks, e.activeContainer);
    var i := FindIndex(tasks, t => HasId(t, e.activeId));
    ColumnMembers(tasks, e.activeContainer, tasks[i]);
    var oldIndex := FindIndex(column, t => HasId(t, e.activeId));
    var newIndex := FindIndex(column, t => HasId(t, e.over.value.id));
    var moved := ArrayMove(column, oldIndex, newIndex);
    assert r == others + moved;
    assert r[..|others|] == others && r[|others|..] == moved;
    SplitByColumn(tasks, e.activeContainer);
    assert multiset(moved) == multiset(Column(tasks, e.activeContainer));
    forall k | |others| <= k < |r| ensures r[k].status == e.activeContainer {
      assert r[k] in multiset(Column(tasks, e.activeContainer)) by {
        assert r[k] == moved[k - |others|];
      }
    }
  }

  // ---------------------------------------------------------------------------
  // The component's state
  // ---------------------------------------------------------------------------

  class Board {
    var tasks: seq<Task>

    constructor()
      ensures tasks == []
    {
      tasks := [];
    }

    /** `if (fetchedTasks) setTasks(fetchedTasks)`: any array, even an empty one, replaces the board. */
    method ReceiveTasks(fetched: Option<seq<Task>>)
      modifies this
      ensures tasks == if fetched.Some? then fetched.value else old(tasks)
    {
      if fetched.Some? {
        tasks := fetched.value;
      }
    }

    /** `tasksByColumn`: one pass over the board, pushing each task onto its status's list. */
    method TasksByColumn() returns (grouped: Grouped)
      ensures forall s :: Get(grouped, s) == Column(tasks, s)
    {
      grouped := Grouped([], [], []);
      var i := 0;
      while i < |tasks|
        invariant 0 <= i <= |tasks|
        invariant forall s :: Get(grouped, s) == Column(tasks[..i], s)
      {
        var task := tasks[i];
        assert tasks[..i + 1] == tasks[..i] + [task];
        forall s ensures Column(tasks[..i + 1], s) == Column(tasks[..i], s) + (if task.status == s then [task] else []) {
          ColumnSnoc(tasks[..i], task, s);
        }
        ghost var before := grouped;
        match task.status {
          case Todo => grouped := grouped.(todo := grouped.todo + [task]);
          case InProgress => grouped := grouped.(inProgress := grouped.inProgress + [task]);
          case Done => grouped := grouped.(done := grouped.done + [task]);
        }
        forall s ensures Get(grouped, s) == Column(tasks[..i + 1], s) {
          assert Get(before, s) == Column(tasks[..i], s);
        }
        i := i + 1;
      }
      assert tasks[..|tasks|] == tasks;
    }

    /**
     * `handleDragEnd`: returns the board shown while the request is in flight
     * and the request sent; `patchSucceeded` is the server's answer.
     */
    method HandleDragEnd(e: DragEvent, patchSucceeded: bool) returns (shown: seq<Task>, patch: Option<PatchRequest>)
      requires WellFormedDrag(tasks, e)
      modifies this
      ensures !Acts(old(tasks), e) ==> tasks == old(tasks) && shown == old(tasks) && patch.None?
      ensures Acts(old(tasks), e) ==>
                && shown == Optimistic(old(tasks), e)
                && patch == Some(PatchRequest(e.activeId, e.over.value.container))
                && tasks == if patchSucceeded then shown else old(tasks)
    {
      shown, patch := tasks, None;
      if e.over.Some? && e.activeId != e.over.value.id {
        var target := e.over.value;
        var newStatus := target.container;
        var originalTasks := tasks;
        var taskIndex := FindIndex(tasks, t => HasId(t, e.activeId));
        if taskIndex == -1 {
          return;
        }
        var updatedTasks := tasks[taskIndex := tasks[taskIndex].(status := newStatus)];
        if e.activeContainer == target.container {
          var grouped := TasksByColumn();
          var column := Get(grouped, e.activeContainer);
          ColumnMembers(tasks, e.activeContainer, tasks[taskIndex]);
          var oldIndex := FindIndex(column, t => HasId(t, e.activeId));
          var newIndex := FindIndex(column, t => HasId(t, target.id));
          var reorderedColumn := ArrayMove(column, oldIndex, newIndex);
          var otherTasks := Filter(tasks, t => NotInColumn(t, e.activeContainer));
          tasks := otherTasks + reorderedColumn;
        } else {
          tasks := updatedTasks;
        }
        shown := tasks;
        patch := Some(PatchRequest(e.activeId, newStatus));
        if !patchSucceeded {
          tasks := originalTasks;
        }
      }
    }
  }
}
