/**
 * `PlannerMemory`: the planner agent's store of the task, its todos and
 * deliverables, the execution history of each todo and the summaries
 * written along the way, together with its Markdown renderings.
 */
module Memory {
  import opened Wrappers
  import opened Text

  // ---------------------------------------------------------------------
  // records
  // ---------------------------------------------------------------------

  datatype TodoStatus = Pending | InProgress | Completed | Skipped

  /** The status's string value. */
  function StatusValue(s: TodoStatus): string
  {
    match s
    case Pending => "pending"
    case InProgress => "in_progress"
    case Completed => "completed"
    case Skipped => "skipped"
  }

  /** `TodoStatus(value)`: the status with that value, or None where Python raises ValueError. */
  function ParseStatus(value: string): (r: Option<TodoStatus>)
    ensures r.Some? ==> StatusValue(r.value) == value
  {
    if value == "pending" then Some(Pending)
    else if value == "in_progress" then Some(InProgress)
    else if value == "completed" then Some(Completed)
    else if value == "skipped" then Some(Skipped)
    else None
  }

  /** Every status is parsed back from its value. */
  lemma ParseStatusValue(s: TodoStatus)
    ensures ParseStatus(StatusValue(s)) == Some(s)
  {
  }

  /** A todo: a description and a status, pending when created from a string. */
  datatype Todo = Todo(description: string, status: TodoStatus)

  /** A deliverable, not yet achieved when created from a string. */
  datatype Deliverable = Deliverable(description: string, achieved: bool)

  /** An action taken for a todo: its kind, and the optional target and reasoning. */
  datatype PlanAction = PlanAction(actionType: string, target: Option<string>, reasoning: Option<string>)

  datatype TodoHistory = TodoHistory(todoIndex: int, todo: string, actions: seq<PlanAction>, summary: Option<string>, completed: bool)

  /** A todo as `set_task` accepts it: a string or a `Todo`. */
  datatype TodoArg = TodoText(text: string) | TodoItem(item: Todo)

  /** A deliverable as `set_task` accepts it: a string or a `Deliverable`. */
  datatype DeliverableArg = DeliverableText(text: string) | DeliverableItem(item: Deliverable)

  /** A status as `update_todo` accepts it: a `TodoStatus` or its string value. */
  datatype StatusArg = GivenStatus(status: TodoStatus) | StatusName(name: string)

  function ToTodo(t: TodoArg): Todo
  {
    match t
    case TodoText(s) => Todo(s, Pending)
    case TodoItem(item) => item
  }

  function ToDeliverable(d: DeliverableArg): Deliverable
  {
    match d
    case DeliverableText(s) => Deliverable(s, false)
    case DeliverableItem(item) => item
  }

  /** The status an argument names, or the ValueError of an unknown value. */
  function Resolve(status: StatusArg): (r: Result<TodoStatus>)
    ensures status.GivenStatus? ==> r == Ok(status.status)
    ensures status.StatusName? ==> (r.Ok? <==> ParseStatus(status.name).Some?)
  {
    match status
    case GivenStatus(s) => Ok(s)
    case StatusName(name) =>
      match ParseStatus(name)
      case Some(s) => Ok(s)
      case None => Err(ValueError("'" + name + "' is not a valid TodoStatus"))
  }

  /** Still to do: pending or in progress. */
  predicate IsActive(t: Todo) { t.status == Pending || t.status == InProgress }

  /** A summary Python treats as true: given and not empty. */
  predicate Truthy(summary: Option<string>) { summary.Some? && summary.value != "" }

  /** How many todos have status `s`. */
  function CountStatus(todos: seq<Todo>, s: TodoStatus): (n: nat)
    ensures n <= |todos|
  {
    if todos == [] then 0
    else CountStatus(todos[..|todos| - 1], s) + (if todos[|todos| - 1].status == s then 1 else 0)
  }

  /** The four counts add up to the number of todos. */
  lemma {:induction false} CountsCoverTodos(todos: seq<Todo>)
    ensures CountStatus(todos, Pending) + CountStatus(todos, InProgress)
      + CountStatus(todos, Completed) + CountStatus(todos, Skipped) == |todos|
  {
    if todos != [] {
      CountsCoverTodos(todos[..|todos| - 1]);
    }
  }

  /** `max(keys)`: the largest of a non-empty list of indices, by one pass. */
  method LargestKey(keys: seq<int>) returns (best: int)
    requires keys != []
    ensures best in keys && forall j :: j in keys ==> j <= best
  {
    best := keys[0];
    for i := 1 to |keys|
      invariant best in keys[..i] && forall j :: j in keys[..i] ==> j <= best
    {
      assert keys[..i + 1] == keys[..i] + [keys[i]];
      if keys[i] > best {
        best := keys[i];
      }
    }
    assert keys[..|keys|] == keys;
  }

  // ---------------------------------------------------------------------
  // renderings
  // ---------------------------------------------------------------------

  /** `text or fallback` */
  function Or(text: string, fallback: string): string
  {
    if text != "" then text else fallback
  }

  function Mark(achieved: bool): string
  {
    if achieved then "\U{2705}" else "\U{274C}"
  }

  /** `str(b)` */
  function PyBool(b: bool): string
  {
    if b then "True" else "False"
  }

  /** `{i + 1}. {mark} {description}` */
  function DeliverableLine(i: nat, d: Deliverable): string
  {
    NatToString(i + 1) + ". " + Mark(d.achieved) + " " + d.description
  }

  /** One numbered line per deliverable, in order. */
  function DeliverableLines(ds: seq<Deliverable>): (lines: seq<string>)
    ensures |lines| == |ds|
    ensures forall i :: 0 <= i < |ds| ==> lines[i] == DeliverableLine(i, ds[i])
  {
    if ds == [] then [] else DeliverableLines(ds[..|ds| - 1]) + [DeliverableLine(|ds| - 1, ds[|ds| - 1])]
  }

  /** `{i + 1}. {description} ({status})` */
  function TodoLine(i: nat, t: Todo): string
  {
    NatToString(i + 1) + ". " + t.description + " (" + StatusValue(t.status) + ")"
  }

  /** One numbered line per todo, in order. */
  function TodoLines(ts: seq<Todo>): (lines: seq<string>)
    ensures |lines| == |ts|
    ensures forall i :: 0 <= i < |ts| ==> lines[i] == TodoLine(i, ts[i])
  {
    if ts == [] then [] else TodoLines(ts[..|ts| - 1]) + [TodoLine(|ts| - 1, ts[|ts| - 1])]
  }

  /** The deliverables section's body: the numbered lines, or a note that there are none. */
  function DeliverablesBody(ds: seq<Deliverable>): (lines: seq<string>)
    ensures |lines| == if ds == [] then 1 else |ds|
  {
    if ds == [] then ["No deliverables defined"] else DeliverableLines(ds)
  }

  /** `format_task_overview` */
  function OverviewLines(description: string, ds: seq<Deliverable>, ts: seq<Todo>): (lines: seq<string>)
    ensures |lines| == 7 + |DeliverablesBody(ds)| + (if ts == [] then 1 else |ts|)
    ensures lines[..4] == ["## Task Instruction", Or(description, "No instruction provided"), "", "## Deliverables"]
    ensures lines[|lines| - 1] == ""
  {
    ["## Task Instruction", Or(description, "No instruction provided"), "", "## Deliverables"]
    + DeliverablesBody(ds)
    + ["", "## Todos"]
    + (if ts == [] then ["No todos defined"] else TodoLines(ts))
    + [""]
  }

  /** `format_execution_summary`: the task summary, then the given last todo summary. */
  function SummaryLines(summary: string, last: Option<string>): (lines: seq<string>)
    ensures |lines| == if last.Some? then 6 else 3
  {
    var head := ["## Task Execution Summary", Or(summary, "No summary available"), ""];
    if last.Some? then head + ["## Last Todo Execution Summary", last.value, ""] else head
  }

  /** The lines of one history record. */
  function HistoryLines(i: nat, h: TodoHistory): (lines: seq<string>)
    ensures |lines| == if Truthy(h.summary) then 6 else 5
  {
    var head := ["### Todo History " + NatToString(i + 1), "Todo: " + h.todo, "Actions: " + NatToString(|h.actions|), "Completed: " + PyBool(h.completed)];
    if Truthy(h.summary) then head + ["Summary: " + h.summary.value, ""] else head + [""]
  }

  /** The records' lines, in order. */
  function HistoriesLines(hs: seq<TodoHistory>): seq<string>
  {
    if hs == [] then [] else HistoriesLines(hs[..|hs| - 1]) + HistoryLines(|hs| - 1, hs[|hs| - 1])
  }

  lemma HistoriesSnoc(hs: seq<TodoHistory>, i: nat)
    requires i < |hs|
    ensures HistoriesLines(hs[..i + 1]) == HistoriesLines(hs[..i]) + HistoryLines(i, hs[i])
  {
    assert hs[..i + 1][..i] == hs[..i];
  }

  /** `format_todo_histories` */
  function HistoriesReport(hs: seq<TodoHistory>): seq<string>
  {
    ["## Todo Histories"] + (if hs == [] then ["No todo histories available"] else HistoriesLines(hs)) + [""]
  }

  /** A todo's line in the internal context: an arrow before the current one, a space before the others. */
  function MarkedTodoLine(i: nat, t: Todo, current: int): string
  {
    (if i == current then "\U{2192}" else " ") + " " + TodoLine(i, t)
  }

  function MarkedTodoLines(ts: seq<Todo>, current: int): (lines: seq<string>)
    ensures |lines| == |ts|
    ensures forall i :: 0 <= i < |ts| ==> lines[i] == MarkedTodoLine(i, ts[i], current)
  {
    if ts == [] then [] else MarkedTodoLines(ts[..|ts| - 1], current) + [MarkedTodoLine(|ts| - 1, ts[|ts| - 1], current)]
  }

  /** The current-todo section of the internal context, present only for an index in range. */
  function CurrentSection(ts: seq<Todo>, summaries: map<int, string>, current: int): (lines: seq<string>)
    ensures !(0 <= current < |ts|) <==> lines == []
  {
    if 0 <= current < |ts| then
      var head := ["## Current Todo (" + StatusValue(ts[current].status) + ")", ts[current].description, ""];
      if current in summaries then head + ["## Current Todo Progress", summaries[current], ""] else head
    else []
  }

  /** `format_internal_context` */
  function InternalLines(ts: seq<Todo>, summaries: map<int, string>, current: int): seq<string>
  {
    CurrentSection(ts, summaries, current) + ["## All Todos"] + MarkedTodoLines(ts, current) + [""]
  }

  /** `format_external_context` */
  function ExternalLines(description: string, ds: seq<Deliverable>, summary: string): (lines: seq<string>)
    ensures |lines| == 5 + |DeliverablesBody(ds)| + (if summary != "" then 3 else 0)
  {
    var head := ["## Overall Task", Or(description, "No task description"), "", "## Deliverables"] + DeliverablesBody(ds) + [""];
    if summary != "" then head + ["## Overall Progress", summary, ""] else head
  }

  // ---------------------------------------------------------------------
  // the store
  // ---------------------------------------------------------------------

  class PlannerMemory {
    var taskDescription: string
    var todos: seq<Todo>
    var deliverables: seq<Deliverable>
    var history: seq<TodoHistory>
    var taskExecutionSummary: string
    var todoExecutionSummaries: map<int, string>
    /** The keys of `todoExecutionSummaries` in the order they were first stored, as a Python dict keeps them. */
    var summaryOrder: seq<int>

    ghost predicate Valid()
      reads this
    {
      && (forall k :: k in todoExecutionSummaries <==> k in summaryOrder)
      && (todoExecutionSummaries == map[] <==> summaryOrder == [])
    }

    /** An empty memory. */
    constructor ()
      ensures taskDescription == "" && todos == [] && deliverables == [] && history == []
      ensures taskExecutionSummary == "" && todoExecutionSummaries == map[]
      ensures Valid()
    {
      summaryOrder := [];
      taskDescription := "";
      todos := [];
      deliverables := [];
      history := [];
      taskExecutionSummary := "";
      todoExecutionSummaries := map[];
    }

    /** `set_task`: the description, todos and deliverables are replaced; strings are wrapped, records kept. */
    method SetTask(description: string, items: seq<TodoArg>, given: Option<seq<DeliverableArg>>)
      modifies this`taskDescription, this`todos, this`deliverables
      ensures taskDescription == description
      ensures |todos| == |items| && forall i :: 0 <= i < |items| ==> todos[i] == ToTodo(items[i])
      ensures given.None? ==> deliverables == []
      ensures given.Some? ==> (|deliverables| == |given.value|
        && forall i :: 0 <= i < |given.value| ==> deliverables[i] == ToDeliverable(given.value[i]))
    {
      taskDescription := description;
      var ts: seq<Todo> := [];
      for i := 0 to |items|
        invariant |ts| == i && forall k :: 0 <= k < i ==> ts[k] == ToTodo(items[k])
      {
        match items[i]
        case TodoText(text) =>
          ts := ts + [Todo(text, Pending)];
        case TodoItem(item) =>
          ts := ts + [item];
      }
      todos := ts;
      var ds: seq<Deliverable> := [];
      if given.Some? && given.value != [] {
        var args := given.value;
        for i := 0 to |args|
          invariant |ds| == i && forall k :: 0 <= k < i ==> ds[k] == ToDeliverable(args[k])
        {
          match args[i]
          case DeliverableText(text) =>
            ds := ds + [Deliverable(text, false)];
          case DeliverableItem(item) =>
            ds := ds + [item];
        }
      }
      deliverables := ds;
    }

    /** `get_current_todo`: the first todo still to do and its index, or (None, -1). */
    method GetCurrentTodo() returns (todo: Option<Todo>, index: int)
      ensures index == -1 <==> forall i :: 0 <= i < |todos| ==> !IsActive(todos[i])
      ensures index == -1 ==> todo.None?
      ensures index != -1 ==> (0 <= index < |todos| && todo == Some(todos[index]) && IsActive(todos[index])
        && forall j :: 0 <= j < index ==> !IsActive(todos[j]))
    {
      for i := 0 to |todos|
        invariant forall j :: 0 <= j < i ==> !IsActive(todos[j])
      {
        if todos[i].status == Pending || todos[i].status == InProgress {
          return Some(todos[i]), i;
        }
      }
      return None, -1;
    }

    /**
     * `update_todo`: for an index in range, the todo's status is set and a
     * non-empty summary is stored under the index; an index out of range
     * changes nothing. A status string that is no status raises.
     */
    method UpdateTodo(index: int, status: StatusArg, summary: Option<string>) returns (err: Option<Error>)
      requires Valid()
      modifies this`todos, this`todoExecutionSummaries, this`summaryOrder
      ensures Valid()
      ensures summaryOrder == if index in old(todoExecutionSummaries) || index !in todoExecutionSummaries
        then old(summaryOrder) else old(summaryOrder) + [index]
      ensures !(0 <= index < |old(todos)|) ==> err.None? && todos == old(todos) && todoExecutionSummaries == old(todoExecutionSummaries)
      ensures 0 <= index < |old(todos)| && Resolve(status).Err? ==>
        err == Some(Resolve(status).error) && todos == old(todos) && todoExecutionSummaries == old(todoExecutionSummaries)
      ensures 0 <= index < |old(todos)| && Resolve(status).Ok? ==>
        && err.None?
        && todos == old(todos)[index := old(todos)[index].(status := Resolve(status).value)]
        && todoExecutionSummaries == if Truthy(summary) then old(todoExecutionSummaries)[index := summary.value] else old(todoExecutionSummaries)
    {
      if 0 <= index < |todos| {
        var s := Resolve(status);
        if s.Err? {
          return Some(s.error);
        }
        todos := todos[index := todos[index].(status := s.value)];
        if summary.Some? && summary.value != "" {
          if index !in todoExecutionSummaries {
            summaryOrder := summaryOrder + [index];
          }
          todoExecutionSummaries := todoExecutionSummaries[index := summary.value];
        }
      }
      return None;
    }

    /** `add_history`: one record, with the todo's description, for an index in range; nothing otherwise. */
    method AddHistory(todoIndex: int, actions: seq<PlanAction>, summary: Option<string>, completed: bool)
      modifies this`history
      ensures 0 <= todoIndex < |todos| ==>
        history == old(history) + [TodoHistory(todoIndex, todos[todoIndex].description, actions, summary, completed)]
      ensures !(0 <= todoIndex < |todos|) ==> history == old(history)
    {
      if 0 <= todoIndex < |todos| {
        history := history + [TodoHistory(todoIndex, todos[todoIndex].description, actions, summary, completed)];
      }
    }

    /** `get_todo_status_summary`: how many todos have each status. */
    method GetTodoStatusSummary() returns (counts: map<TodoStatus, nat>)
      ensures counts.Keys == {Pending, InProgress, Completed, Skipped}
      ensures forall s :: s in counts ==> counts[s] == CountStatus(todos, s)
    {
      counts := map[Pending := 0, InProgress := 0, Completed := 0, Skipped := 0];
      for i := 0 to |todos|
        invariant counts.Keys == {Pending, InProgress, Completed, Skipped}
        invariant forall s :: s in counts ==> counts[s] == CountStatus(todos[..i], s)
      {
        assert todos[..i + 1][..i] == todos[..i];
        var s := todos[i].status;
        assert s == Pending || s == InProgress || s == Completed || s == Skipped;
        counts := counts[s := counts[s] + 1];
      }
      assert todos[..|todos|] == todos;
    }

    /** `append_todo`: one pending todo at the end. */
    method AppendTodo(description: string)
      modifies this`todos
      ensures todos == old(todos) + [Todo(description, Pending)]
    {
      todos := todos + [Todo(description, Pending)];
    }

    /** `append_deliverable`: one unachieved deliverable at the end. */
    method AppendDeliverable(description: string)
      modifies this`deliverables
      ensures deliverables == old(deliverables) + [Deliverable(description, false)]
    {
      deliverables := deliverables + [Deliverable(description, false)];
    }

    /** The deliverables section's body, line by line. */
    method DeliverableBodyLines() returns (lines: seq<string>)
      ensures lines == DeliverablesBody(deliverables)
    {
      if deliverables == [] {
        return ["No deliverables defined"];
      }
      lines := [];
      for i := 0 to |deliverables|
        invariant lines == DeliverableLines(deliverables[..i])
      {
        assert deliverables[..i + 1][..i] == deliverables[..i];
        lines := lines + [DeliverableLine(i, deliverables[i])];
      }
      assert deliverables[..|deliverables|] == deliverables;
    }

    /** `format_task_overview` */
    method FormatTaskOverview() returns (text: string)
      ensures text == Join(OverviewLines(taskDescription, deliverables, todos), "\n")
    {
      var lines := ["## Task Instruction", Or(taskDescription, "No instruction provided"), "", "## Deliverables"];
      var body := DeliverableBodyLines();
      lines := lines + body + ["", "## Todos"];
      if todos == [] {
        lines := lines + ["No todos defined"];
      } else {
        ghost var prefix := lines;
        for i := 0 to |todos|
          invariant lines == prefix + TodoLines(todos[..i])
        {
          assert todos[..i + 1][..i] == todos[..i];
          lines := lines + [TodoLine(i, todos[i])];
        }
        assert todos[..|todos|] == todos;
      }
      lines := lines + [""];
      return Join(lines, "\n");
    }

    /** `format_execution_summary`: with `includeLastTodo`, the summary stored under the largest index follows. */
    method FormatExecutionSummary(includeLastTodo: bool) returns (text: string)
      requires Valid()
      ensures !includeLastTodo || todoExecutionSummaries == map[] ==>
        text == Join(SummaryLines(taskExecutionSummary, None), "\n")
      ensures includeLastTodo && todoExecutionSummaries != map[] ==>
        exists k :: k in todoExecutionSummaries && (forall j :: j in todoExecutionSummaries ==> j <= k)
          && text == Join(SummaryLines(taskExecutionSummary, Some(todoExecutionSummaries[k])), "\n")
    {
      var last: Option<string> := None;
      if includeLastTodo && todoExecutionSummaries != map[] {
        var best := LargestKey(summaryOrder);
        assert best in todoExecutionSummaries;
        last := Some(todoExecutionSummaries[best]);
      }
      return Join(SummaryLines(taskExecutionSummary, last), "\n");
    }

    /** `format_todo_histories` */
    method FormatTodoHistories() returns (text: string)
      ensures text == Join(HistoriesReport(history), "\n")
    {
      var body: seq<string> := [];
      if history == [] {
        body := ["No todo histories available"];
      } else {
        for i := 0 to |history|
          invariant body == HistoriesLines(history[..i])
        {
          HistoriesSnoc(history, i);
          body := body + HistoryLines(i, history[i]);
        }
        assert history[..|history|] == history;
      }
      return Join(["## Todo Histories"] + body + [""], "\n");
    }

    /** `format_full_context`: the overview and the execution summary, then the histories if asked for. */
    method FormatFullContext(includeHistories: bool) returns (text: string)
      requires Valid()
      ensures var parts := [Join(OverviewLines(taskDescription, deliverables, todos), "\n"), Join(SummaryLines(taskExecutionSummary, None), "\n")];
        text == if includeHistories then Join(parts + [Join(HistoriesReport(history), "\n")], "\n") else Join(parts, "\n")
    {
      var overview := FormatTaskOverview();
      var summary := FormatExecutionSummary(false);
      var parts := [overview, summary];
      if includeHistories {
        var histories := FormatTodoHistories();
        parts := parts + [histories];
      }
      return Join(parts, "\n");
    }

    /** The list of all todos, the one at `current` marked. */
    method MarkedLines(current: int) returns (lines: seq<string>)
      ensures lines == MarkedTodoLines(todos, current)
    {
      lines := [];
      for i := 0 to |todos|
        invariant lines == MarkedTodoLines(todos[..i], current)
      {
        assert todos[..i + 1][..i] == todos[..i];
        lines := lines + [MarkedTodoLine(i, todos[i], current)];
      }
      assert todos[..|todos|] == todos;
    }

    /** `format_internal_context`: the current todo (for an index in range), then every todo with the current one marked. */
    method FormatInternalContext(todoIndex: int) returns (text: string)
      ensures text == Join(InternalLines(todos, todoExecutionSummaries, todoIndex), "\n")
    {
      var lines: seq<string> := [];
      if 0 <= todoIndex < |todos| {
        var current := todos[todoIndex];
        lines := lines + ["## Current Todo (" + StatusValue(current.status) + ")", current.description, ""];
        if todoIndex in todoExecutionSummaries {
          lines := lines + ["## Current Todo Progress", todoExecutionSummaries[todoIndex], ""];
        }
      }
      assert lines == CurrentSection(todos, todoExecutionSummaries, todoIndex);
      var marked := MarkedLines(todoIndex);
      lines := lines + ["## All Todos"] + marked + [""];
      return Join(lines, "\n");
    }

    /** `format_external_context` */
    method FormatExternalContext() returns (text: string)
      ensures text == Join(ExternalLines(taskDescription, deliverables, taskExecutionSummary), "\n")
    {
      var lines := ["## Overall Task", Or(taskDescription, "No task description"), "", "## Deliverables"];
      var body := DeliverableBodyLines();
      lines := lines + body + [""];
      if taskExecutionSummary != "" {
        lines := lines + ["## Overall Progress", taskExecutionSummary, ""];
      }
      return Join(lines, "\n");
    }
  }

  // ---------------------------------------------------------------------
  // properties
  // ---------------------------------------------------------------------

  /** In the internal context, exactly the current todo's line carries the arrow. */
  lemma OnlyCurrentMarked(ts: seq<Todo>, summaries: map<int, string>, current: int, i: nat)
    requires i < |ts|
    ensures var lines := InternalLines(ts, summaries, current);
      var k := |CurrentSection(ts, summaries, current)| + 1 + i;
      k < |lines| && (lines[k][0] == '\U{2192}' <==> i == current)
  {
    var lines := InternalLines(ts, summaries, current);
    var k := |CurrentSection(ts, summaries, current)| + 1 + i;
    assert lines[k] == MarkedTodoLines(ts, current)[i];
  }

  /** For an index out of range, the internal context starts with the list of all todos. */
  lemma OutOfRangeOmitsCurrent(ts: seq<Todo>, summaries: map<int, string>, current: int)
    requires !(0 <= current < |ts|)
    ensures InternalLines(ts, summaries, current)[0] == "## All Todos"
  {
  }

  /** For an index in range, the internal context starts with that todo's status and description. */
  lemma InRangeShowsCurrent(ts: seq<Todo>, summaries: map<int, string>, current: int)
    requires 0 <= current < |ts|
    ensures var lines := InternalLines(ts, summaries, current);
      lines[0] == "## Current Todo (" + StatusValue(ts[current].status) + ")" && lines[1] == ts[current].description
  {
  }

  /** The histories report has one block of five or six lines per record, framed by a heading and a blank line. */
  lemma {:induction false} HistoriesLength(hs: seq<TodoHistory>)
    ensures 5 * |hs| <= |HistoriesLines(hs)| <= 6 * |hs|
  {
    if hs != [] {
      HistoriesLength(hs[..|hs| - 1]);
    }
  }

  /** Updating a todo leaves every other todo as it was, and the number of todos too. */
  lemma UpdateKeepsOthers(ts: seq<Todo>, index: nat, s: TodoStatus, j: nat)
    requires index < |ts| && j < |ts| && j != index
    ensures |ts[index := ts[index].(status := s)]| == |ts|
    ensures ts[index := ts[index].(status := s)][j] == ts[j]
    ensures ts[index := ts[index].(status := s)][index].description == ts[index].description
  {
  }
}
