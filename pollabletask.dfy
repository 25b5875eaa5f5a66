/**
 * Progress polling for scheduled and ad hoc tasks: a task finds its own type and id, keeps one
 * progress row in the task_progress table while it runs, and records its progress there.
 */
module PollableTask {
  import opened Wrappers
  import opened RealArith

  datatype TaskType = Scheduled | Adhoc

  /** What the running task object is an instance of. */
  datatype TaskClass = ScheduledTaskSubclass | AdhocTaskSubclass | OtherClass

  /** A task_progress row; a column never written is null. */
  datatype ProgressRow = ProgressRow(
    tasktype: Option<TaskType>,
    taskid: Option<int>,
    percentcompleted: Option<int>,
    maxiterations: Option<int>,
    currentiteration: Option<int>)

  /** The two ways reading the progress fails: the row is gone, or the maximum is zero. */
  datatype ProgressError = NoRecord | DivisionByZero

  /** get_task_type: the type a task class polls under, none for any other class. */
  function TaskTypeOf(c: TaskClass): (r: Option<TaskType>)
    ensures r == Some(Scheduled) <==> c == ScheduledTaskSubclass
    ensures r == Some(Adhoc) <==> c == AdhocTaskSubclass
    ensures r == None <==> c == OtherClass
  {
    match c
    case ScheduledTaskSubclass => Some(Scheduled)
    case AdhocTaskSubclass => Some(Adhoc)
    case OtherClass => None
  }

  /**
   * get_task_id as written: the id column of the task's row in the table of its type;
   * `registered` is that row's id, None when no row has the class name. A missing row makes
   * the lookup return false, which the nullable int return type turns into 0.
   */
  function TaskIdAsWritten(c: TaskClass, registered: Option<int>): (r: Option<int>)
    ensures r.Some? <==> TaskTypeOf(c).Some?
    ensures r.Some? && registered.Some? ==> r == registered
    ensures r.Some? && registered.None? ==> r == Some(0)
  {
    if TaskTypeOf(c).None? then None else Some(registered.GetOr(0))
  }

  /** get_task_id as intended: none when the task cannot be found. */
  function TaskId(c: TaskClass, registered: Option<int>): (r: Option<int>)
    ensures r.Some? <==> TaskTypeOf(c).Some? && registered.Some?
    ensures r.Some? ==> r == registered
  {
    if TaskTypeOf(c).None? then None else registered
  }

  /** The two lookups differ exactly for a task of a known type whose row is missing. */
  lemma TaskIdDiffersOnlyOnMissingRow(c: TaskClass, registered: Option<int>)
    ensures TaskIdAsWritten(c, registered) != TaskId(c, registered) <==> TaskTypeOf(c).Some? && registered.None?
  {
  }

  /** As written, a scheduled task without a task_scheduled row passes the polling check with task id 0. */
  lemma MissingTaskRowReadsAsZero()
    ensures TaskIdAsWritten(ScheduledTaskSubclass, None) == Some(0)
    ensures TaskId(ScheduledTaskSubclass, None) == None
  {
  }

  /** PHP's round: to the nearest integer, halves away from zero. */
  function RoundHalfAwayFromZero(x: real): (r: int)
    ensures x >= 0.0 ==> r >= 0 && r as real - 0.5 <= x < r as real + 0.5
    ensures x < 0.0 ==> r <= 0 && r as real - 0.5 < x <= r as real + 0.5
  {
    if x >= 0.0 then FloorOf(x + 0.5) else -FloorOf(-x + 0.5)
  }

  /** round(current / max * 100). */
  function Percent(current: int, max: int): int
    requires max != 0
  {
    RoundHalfAwayFromZero(current as real / max as real * 100.0)
  }

  lemma RoundMonotone(x: real, y: real)
    requires 0.0 <= x <= y
    ensures RoundHalfAwayFromZero(x) <= RoundHalfAwayFromZero(y)
  {
  }

  lemma ScaleMonotone(a: real, b: real)
    requires a <= b
    ensures a * 100.0 <= b * 100.0
  {
  }

  /** The share of `c` in `max`, as a percentage before rounding. */
  lemma ShareBounds(c: int, max: int)
    requires 0 <= c <= max && max > 0
    ensures 0.0 <= c as real / max as real * 100.0 <= 100.0
  {
    var m := max as real;
    DivMonotone(0.0, c as real, m);
    DivMonotone(c as real, m, m);
    assert m / m == 1.0;
    ScaleMonotone(0.0, c as real / m);
    ScaleMonotone(c as real / m, 1.0);
  }

  /**
   * Progress within the iteration range is a percentage: 0 at the start, 100 at the last
   * iteration, and never decreasing as the iteration advances.
   */
  lemma PercentIsProgress(c1: int, c2: int, max: int)
    requires 0 <= c1 <= c2 <= max && max > 0
    ensures 0 <= Percent(c1, max) <= Percent(c2, max) <= 100
    ensures Percent(0, max) == 0 && Percent(max, max) == 100
  {
    var m := max as real;
    var x1 := c1 as real / m * 100.0;
    var x2 := c2 as real / m * 100.0;
    ShareBounds(c1, max);
    ShareBounds(c2, max);
    DivMonotone(c1 as real, c2 as real, m);
    ScaleMonotone(c1 as real / m, c2 as real / m);
    RoundMonotone(x1, x2);
    RoundMonotone(x2, 100.0);
    EndShares(max);
    assert RoundHalfAwayFromZero(100.0) == 100;
    assert RoundHalfAwayFromZero(0.0) == 0;
  }

  lemma EndShares(max: int)
    requires max > 0
    ensures (0 as real) / max as real * 100.0 == 0.0
    ensures max as real / max as real * 100.0 == 100.0
  {
    var m := max as real;
    assert m / m == 1.0;
    assert 0.0 / m == 0.0;
  }

  /**
   * calculate_task_progress on row `progressid`: null without a maximum, the rounded percentage
   * otherwise (a null current iteration counting as 0); a missing row or a zero maximum fails.
   */
  function CalculateTaskProgress(rows: map<nat, ProgressRow>, progressid: Option<nat>): (r: Result<Option<int>, ProgressError>)
    ensures progressid.None? || progressid.value !in rows ==> r == Failure(NoRecord)
    ensures progressid.Some? && progressid.value in rows && rows[progressid.value].maxiterations.None? ==> r == Success(None)
    ensures progressid.Some? && progressid.value in rows && rows[progressid.value].maxiterations == Some(0) ==>
      r == Failure(DivisionByZero)
    ensures progressid.Some? && progressid.value in rows && rows[progressid.value].maxiterations.Some?
            && rows[progressid.value].maxiterations.value != 0 ==>
      r == Success(Some(Percent(rows[progressid.value].currentiteration.GetOr(0), rows[progressid.value].maxiterations.value)))
    ensures r.Success? && r.value.Some? ==>
      && var row := rows[progressid.value];
      && row.maxiterations.Some? && row.maxiterations.value != 0
      && r.value.value == Percent(row.currentiteration.GetOr(0), row.maxiterations.value)
  {
    if progressid.None? || progressid.value !in rows then Failure(NoRecord)
    else
      var row := rows[progressid.value];
      if row.maxiterations.None? then Success(None)
      else if row.maxiterations.value == 0 then Failure(DivisionByZero)
      else Success(Some(Percent(row.currentiteration.GetOr(0), row.maxiterations.value)))
  }

  /** What calculate_task_time_left shows, up to the estimate's arithmetic. */
  datatype TimeLeft = Dash | StillCalculating | Estimate

  /**
   * The guards of calculate_task_time_left: a row of no known type shows '-', and under 5 percent
   * (or with no percentage, which compares below 5) the estimate is still being calculated.
   */
  function TimeLeftGuard(rowType: Option<TaskType>, percent: Option<int>): (r: TimeLeft)
    ensures r == Dash <==> rowType.None?
    ensures r == Estimate <==> rowType.Some? && percent.Some? && percent.value >= 5
  {
    if rowType.None? then Dash
    else if percent.None? || percent.value < 5 then StillCalculating
    else Estimate
  }

  /** The progress rows of one task. */
  predicate IsTaskRow(row: ProgressRow, tasktype: Option<TaskType>, taskid: Option<int>) {
    row.tasktype == tasktype && row.taskid == taskid
  }

  function WithoutTaskRows(rows: map<nat, ProgressRow>, tasktype: Option<TaskType>, taskid: Option<int>): (r: map<nat, ProgressRow>)
    ensures forall id :: id in r <==> id in rows && !IsTaskRow(rows[id], tasktype, taskid)
    ensures forall id :: id in r ==> r[id] == rows[id]
  {
    map id | id in rows && !IsTaskRow(rows[id], tasktype, taskid) :: rows[id]
  }

  /** The task_progress table; row ids are handed out from 1 upwards. */
  class ProgressTable {
    var rows: map<nat, ProgressRow>
    var nextId: nat

    ghost predicate Valid()
      reads this
    {
      nextId >= 1 && forall id :: id in rows ==> 1 <= id < nextId
    }

    constructor ()
      ensures Valid() && rows == map[]
    {
      rows, nextId := map[], 1;
    }

    /** insert_record: a new row under a fresh positive id. */
    method Insert(row: ProgressRow) returns (id: nat)
      requires Valid()
      modifies this
      ensures Valid()
      ensures id == old(nextId) && id >= 1 && id !in old(rows)
      ensures rows == old(rows)[id := row] && nextId == old(nextId) + 1
    {
      id := nextId;
      rows := rows[id := row];
      nextId := nextId + 1;
    }

    /** delete_records on (type, taskid). */
    method DeleteTaskRows(tasktype: Option<TaskType>, taskid: Option<int>)
      requires Valid()
      modifies this`rows
      ensures Valid()
      ensures rows == WithoutTaskRows(old(rows), tasktype, taskid)
    {
      rows := WithoutTaskRows(rows, tasktype, taskid);
    }
  }

  /** A running task that uses the polling trait. */
  class Task {
    const taskClass: TaskClass
    /** The id of the task's own row in task_scheduled or task_adhoc, found by class name. */
    const registered: Option<int>
    const table: ProgressTable
    var tasktype: Option<TaskType>
    var taskid: Option<int>
    var progressid: Option<nat>

    ghost predicate Valid()
      reads this, table
    {
      table.Valid()
    }

    constructor (c: TaskClass, reg: Option<int>, t: ProgressTable)
      requires t.Valid()
      ensures Valid()
      ensures taskClass == c && registered == reg && table == t
      ensures tasktype == None && taskid == None && progressid == None
    {
      taskClass, registered, table := c, reg, t;
      tasktype, taskid, progressid := None, None, None;
    }

    /** can_poll: stores the task's type and id when both are known; otherwise changes nothing. */
    method CanPoll() returns (ok: bool)
      modifies this`tasktype, this`taskid
      ensures ok <==> TaskTypeOf(taskClass).Some? && TaskId(taskClass, registered).Some?
      ensures ok ==> tasktype == TaskTypeOf(taskClass) && taskid == TaskId(taskClass, registered)
      ensures !ok ==> tasktype == old(tasktype) && taskid == old(taskid)
    {
      var t := TaskTypeOf(taskClass);
      var id := TaskId(taskClass, registered);
      if id.None? || t.None? {
        return false;
      }
      tasktype, taskid := t, id;
      ok := true;
    }

    /** end_polling: deletes every progress row of this task's (type, id). */
    method EndPolling()
      requires Valid()
      modifies table`rows
      ensures Valid()
      ensures table.rows == WithoutTaskRows(old(table.rows), tasktype, taskid)
    {
      table.DeleteTaskRows(tasktype, taskid);
    }

    /**
     * start_polling: when the task can poll, replaces its progress rows with one fresh row and
     * remembers that row's id; otherwise changes nothing.
     */
    method StartPolling()
      requires Valid()
      modifies this`tasktype, this`taskid, this`progressid, table
      ensures Valid()
      ensures TaskTypeOf(taskClass).None? || TaskId(taskClass, registered).None? ==>
        tasktype == old(tasktype) && taskid == old(taskid) && progressid == old(progressid) && table.rows == old(table.rows)
      ensures TaskTypeOf(taskClass).Some? && TaskId(taskClass, registered).Some? ==>
        && tasktype == TaskTypeOf(taskClass) && taskid == TaskId(taskClass, registered)
        && progressid.Some? && progressid.value !in old(table.rows)
        && table.rows == WithoutTaskRows(old(table.rows), tasktype, taskid)[progressid.value := ProgressRow(tasktype, taskid, None, None, None)]
        && (forall id :: id in table.rows && IsTaskRow(table.rows[id], tasktype, taskid) ==> id == progressid.value)
    {
      var ok := CanPoll();
      if !ok {
        return;
      }
      EndPolling();
      var id := table.Insert(ProgressRow(tasktype, taskid, None, None, None));
      progressid := Some(id);
    }

    /** set_task_progress: writes the percentage of the task's progress row, once polling has started. */
    method SetTaskProgress(value: int)
      requires Valid()
      modifies table`rows
      ensures Valid()
      ensures progressid.None? || progressid.value !in old(table.rows) ==> table.rows == old(table.rows)
      ensures progressid.Some? && progressid.value in old(table.rows) ==>
        table.rows == old(table.rows)[progressid.value := old(table.rows)[progressid.value].(percentcompleted := Some(value))]
    {
      if progressid.None? {
        return;
      }
      var id := progressid.value;
      if id in table.rows {
        table.rows := table.rows[id := table.rows[id].(percentcompleted := Some(value))];
      }
    }

    /** set_task_progress_iterations: writes the maximum iteration of the task's progress row, once polling has started. */
    method SetTaskProgressIterations(value: int)
      requires Valid()
      modifies table`rows
      ensures Valid()
      ensures progressid.None? || progressid.value !in old(table.rows) ==> table.rows == old(table.rows)
      ensures progressid.Some? && progressid.value in old(table.rows) ==>
        table.rows == old(table.rows)[progressid.value := old(table.rows)[progressid.value].(maxiterations := Some(value))]
    {
      if progressid.None? {
        return;
      }
      var id := progressid.value;
      if id in table.rows {
        table.rows := table.rows[id := table.rows[id].(maxiterations := Some(value))];
      }
    }

    /**
     * update_task_progress_iteration: writes the current iteration together with the percentage
     * calculated from the row as it was before this write; fails, writing nothing, when that
     * calculation fails.
     */
    method UpdateTaskProgressIteration(value: int) returns (error: Option<ProgressError>)
      requires Valid()
      modifies table`rows
      ensures Valid()
      ensures progressid.None? ==> error == None && table.rows == old(table.rows)
      ensures progressid.Some? && CalculateTaskProgress(old(table.rows), progressid).Failure? ==>
        error == Some(CalculateTaskProgress(old(table.rows), progressid).error) && table.rows == old(table.rows)
      ensures progressid.Some? && CalculateTaskProgress(old(table.rows), progressid).Success? ==>
        && error == None
        && table.rows == old(table.rows)[progressid.value := old(table.rows)[progressid.value].(
             currentiteration := Some(value),
             percentcompleted := CalculateTaskProgress(old(table.rows), progressid).value)]
    {
      if progressid.None? {
        return None;
      }
      var percent := CalculateTaskProgress(table.rows, progressid);
      if percent.Failure? {
        return Some(percent.error);
      }
      var id := progressid.value;
      table.rows := table.rows[id := table.rows[id].(currentiteration := Some(value), percentcompleted := percent.value)];
      error := None;
    }
  }

  /**
   * A task that sets ten iterations and then reports iterations 5 and 10 stores 0 and then 50
   * percent: each stored percentage belongs to the iteration before.
   */
  method IterationPercentLags() returns (afterFive: Option<int>, afterTen: Option<int>)
    ensures afterFive == Some(0) && afterTen == Some(50)
  {
    var table := new ProgressTable();
    var task := new Task(ScheduledTaskSubclass, Some(7), table);
    task.StartPolling();
    task.SetTaskProgressIterations(10);
    var _ := task.UpdateTaskProgressIteration(5);
    afterFive := table.rows[task.progressid.value].percentcompleted;
    var _ := task.UpdateTaskProgressIteration(10);
    afterTen := table.rows[task.progressid.value].percentcompleted;
    assert 5 as real / 10 as real * 100.0 == 50.0;
  }

  /** Before polling starts the setters leave the table alone; restarting leaves exactly one row for the task. */
  method RestartKeepsOneRow() returns (untouched: bool, count: nat)
    ensures untouched && count == 1
  {
    var table := new ProgressTable();
    var task := new Task(AdhocTaskSubclass, Some(3), table);
    task.SetTaskProgress(40);
    task.SetTaskProgressIterations(10);
    var _ := task.UpdateTaskProgressIteration(2);
    untouched := table.rows == map[];
    task.StartPolling();
    var first := task.progressid.value;
    task.StartPolling();
    var second := task.progressid.value;
    assert table.rows.Keys == {second} by {
      forall id | id in table.rows ensures id == second {
        assert IsTaskRow(table.rows[id], Some(Adhoc), Some(3));
      }
    }
    count := |table.rows.Keys|;
  }

  /** A class that is neither kind of task never polls, and the table stays empty. */
  method UnsupportedClassNeverPolls() returns (polling: bool, rows: nat)
    ensures !polling && rows == 0
  {
    var table := new ProgressTable();
    var task := new Task(OtherClass, Some(3), table);
    task.StartPolling();
    polling := task.progressid.Some?;
    rows := |table.rows|;
  }
}
