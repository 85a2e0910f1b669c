/**
 * `LLMPlanner`: the decisions it takes on the workers' JSON answers
 * (planning, reflection, summary), the window of recent actions it sends
 * for reflection, and the Markdown it writes from a context dictionary
 * when no `PlannerMemory` is given. The worker calls themselves are not
 * modelled: each parser receives the response text and its decoding
 * (None where `json.loads` raised).
 */
module LlmPlanner {
  import opened Wrappers
  import opened Text
  import opened Json
  import Memory

  // ---------------------------------------------------------------------
  // parsing the workers' answers
  // ---------------------------------------------------------------------

  /** The planning answer; its fields hold whatever the decoded object held. */
  datatype PlannerOutput = PlannerOutput(instruction: Json, reasoning: Json, subtodos: Json)

  /** The reflection answer. */
  datatype ReflectionOutput = ReflectionOutput(continueCurrent: bool, newInstruction: Option<string>, reasoning: Json, successAssessment: bool)

  const PlannerFallback := "Failed to parse structured response"
  const ReflectionFallback := "Failed to parse reflection response, continuing current approach"

  /** Python's name for the type of a decoded value. */
  function TypeName(v: Json): string
  {
    match v
    case JNull => "NoneType"
    case JBool(_) => "bool"
    case JInt(_) => "int"
    case JFloat(_) => "float"
    case JStr(_) => "str"
    case JArr(_) => "list"
    case JObj(_) => "dict"
  }

  /** The AttributeError of calling a method a value's type lacks. */
  function NoAttribute(v: Json, name: string): Error
  {
    AttributeError("'" + TypeName(v) + "' object has no attribute '" + name + "'")
  }

  /**
   * `_parse_planner_output`: the instruction is the "subtask" value, else the
   * "instruction" value, else ""; undecodable text becomes the instruction
   * itself. A decoded value that is not an object has no `get`.
   */
  function ParsePlannerOutput(response: string, decoded: Option<Json>): (r: Result<PlannerOutput>)
    ensures decoded.None? ==> r == Ok(PlannerOutput(JStr(response), JStr(PlannerFallback), JArr([])))
    ensures decoded.Some? && !decoded.value.JObj? ==> r == Err(NoAttribute(decoded.value, "get"))
    ensures decoded.Some? && decoded.value.JObj? ==> (r.Ok? &&
      var f := decoded.value.fields;
      && (Get(f, "subtask").Some? ==> r.value.instruction == Get(f, "subtask").value)
      && (Get(f, "subtask").None? && Get(f, "instruction").Some? ==> r.value.instruction == Get(f, "instruction").value)
      && (Get(f, "subtask").None? && Get(f, "instruction").None? ==> r.value.instruction == JStr(""))
      && (Get(f, "reasoning").None? ==> r.value.reasoning == JStr(""))
      && (Get(f, "subtodos").None? ==> r.value.subtodos == JArr([])))
  {
    match decoded
    case None => Ok(PlannerOutput(JStr(response), JStr(PlannerFallback), JArr([])))
    case Some(JObj(f)) =>
      Ok(PlannerOutput(GetOr(f, "subtask", GetOr(f, "instruction", JStr(""))), GetOr(f, "reasoning", JStr("")), GetOr(f, "subtodos", JArr([]))))
    case Some(v) => Err(NoAttribute(v, "get"))
  }

  /**
   * `_parse_reflection_output`: success iff "success" is "yes"; a non-blank
   * "subtask_instruction" is a pivot to that (stripped) instruction; with
   * neither, the current instruction goes on. Undecodable text goes on
   * with the current instruction.
   */
  function ParseReflectionOutput(decoded: Option<Json>): (r: Result<ReflectionOutput>)
    ensures decoded.None? ==> r == Ok(ReflectionOutput(true, None, JStr(ReflectionFallback), false))
    ensures decoded.Some? && !decoded.value.JObj? ==> r == Err(NoAttribute(decoded.value, "get"))
    ensures decoded.Some? && decoded.value.JObj? ==>
      var f := decoded.value.fields;
      var sub := GetOr(f, "subtask_instruction", JStr(""));
      && (r.Ok? <==> sub.JStr?)
      && (r.Err? ==> r == Err(NoAttribute(sub, "strip")))
      && (r.Ok? ==>
        && (r.value.successAssessment <==> Get(f, "success") == Some(JStr("yes")))
        && (r.value.newInstruction.None? <==> Strip(sub.s) == "")
        && (r.value.newInstruction.Some? ==> r.value.newInstruction.value == Strip(sub.s))
        && (r.value.continueCurrent <==> !r.value.successAssessment && Strip(sub.s) == ""))
    // a pivot never also continues, and success never continues
    ensures r.Ok? && r.value.continueCurrent ==> r.value.newInstruction.None? && !r.value.successAssessment
  {
    match decoded
    case None => Ok(ReflectionOutput(true, None, JStr(ReflectionFallback), false))
    case Some(JObj(f)) =>
      var success := GetOr(f, "success", JStr("no")) == JStr("yes");
      var sub := GetOr(f, "subtask_instruction", JStr(""));
      if !sub.JStr? then Err(NoAttribute(sub, "strip"))
      else
        var instruction := Strip(sub.s);
        Ok(ReflectionOutput(
          !success && instruction == "",
          if instruction != "" then Some(instruction) else None,
          GetOr(f, "reflection", GetOr(f, "reasoning", JStr(""))),
          success))
    case Some(v) => Err(NoAttribute(v, "get"))
  }

  /** `summarize`'s answer: the "task_summary" value, else the response text itself. */
  function ParseSummary(response: string, decoded: Option<Json>): (r: Result<Json>)
    ensures decoded.None? ==> r == Ok(JStr(response))
    ensures decoded.Some? && !decoded.value.JObj? ==> r == Err(NoAttribute(decoded.value, "get"))
    ensures decoded.Some? && decoded.value.JObj? ==> (r.Ok? &&
      var found := Get(decoded.value.fields, "task_summary");
      r.value == if found.Some? then found.value else JStr(response))
  {
    match decoded
    case None => Ok(JStr(response))
    case Some(JObj(f)) => Ok(GetOr(f, "task_summary", JStr(response)))
    case Some(v) => Err(NoAttribute(v, "get"))
  }

  // ---------------------------------------------------------------------
  // the reflection window
  // ---------------------------------------------------------------------

  /** One entry of `window_steps`. */
  datatype WindowStep = WindowStep(stepNumber: nat, actionType: string, target: string, reasoning: string)

  /** `value or ""` */
  function OrEmpty(value: Option<string>): string
  {
    if value.Some? then value.value else ""
  }

  /** `xs[-n:]` for n >= 1 */
  function LastN<T>(xs: seq<T>, n: nat): (r: seq<T>)
    ensures |r| == if |xs| < n then |xs| else n
    ensures r == xs[|xs| - |r|..]
  {
    if |xs| <= n then xs else xs[|xs| - n..]
  }

  /** `reflect`'s window: the last ten actions, numbered from 1. */
  function WindowSteps(actions: seq<Memory.PlanAction>): (steps: seq<WindowStep>)
    ensures |steps| == if |actions| < 10 then |actions| else 10
    ensures forall i :: 0 <= i < |steps| ==>
      var a := actions[|actions| - |steps| + i];
      steps[i] == WindowStep(i + 1, a.actionType, OrEmpty(a.target), OrEmpty(a.reasoning))
  {
    var recent := LastN(actions, 10);
    seq(|recent|, i requires 0 <= i < |recent| => WindowStep(i + 1, recent[i].actionType, OrEmpty(recent[i].target), OrEmpty(recent[i].reasoning)))
  }

  /** The window ends with the latest action and, with more than ten, starts ten back. */
  lemma WindowEndsWithLatest(actions: seq<Memory.PlanAction>)
    requires actions != []
    ensures var steps := WindowSteps(actions);
      && steps[|steps| - 1].actionType == actions[|actions| - 1].actionType
      && steps[|steps| - 1].stepNumber == |steps|
      && (|actions| >= 10 ==> steps[0].actionType == actions[|actions| - 10].actionType)
  {
  }

  // ---------------------------------------------------------------------
  // Markdown from a context dictionary
  // ---------------------------------------------------------------------

  /** A todo entry of the context: the keys the formatter reads. */
  datatype TodoEntry = TodoEntry(index: Json, description: Json, status: Json)

  /** A deliverable entry of the context. */
  datatype DeliverableEntry = DeliverableEntry(description: Json, achieved: Json)

  /** A history entry of the context; `summary` is None where the key is absent. */
  datatype HistoryEntry = HistoryEntry(todoIndex: Json, actionCount: Json, completed: Json, summary: Option<Json>)

  /** The context dictionary: each field is None where its key is absent. */
  datatype PlanContext = PlanContext(
    taskDescription: Option<string>,
    currentTodo: Option<Json>,
    todos: Option<seq<TodoEntry>>,
    deliverables: Option<seq<DeliverableEntry>>,
    history: Option<seq<HistoryEntry>>)

  /** Python's truth value of a decoded value. */
  predicate PyTruthy(v: Json)
  {
    match v
    case JNull => false
    case JBool(b) => b
    case JInt(i) => i != 0
    case JFloat(d) => d.mantissa != 0
    case JStr(s) => s != ""
    case JArr(items) => items != []
    case JObj(fields) => fields != []
  }

  function TodoEntryLine(t: TodoEntry): string
  {
    PyStr(t.index) + ". " + PyStr(t.description) + " (" + PyStr(t.status) + ")"
  }

  function TodoEntryLines(ts: seq<TodoEntry>): (lines: seq<string>)
    ensures |lines| == |ts|
    ensures forall i :: 0 <= i < |ts| ==> lines[i] == TodoEntryLine(ts[i])
  {
    if ts == [] then [] else TodoEntryLines(ts[..|ts| - 1]) + [TodoEntryLine(ts[|ts| - 1])]
  }

  /** `_format_internal_context_from_dict` */
  function InternalFromDict(c: PlanContext): (parts: seq<string>)
    ensures |parts| == 1 + (if c.currentTodo.Some? then 1 else 0) + (if c.todos.Some? then 1 + |c.todos.value| else 0)
    ensures parts[0] == "## Current TODO"
  {
    var head := if c.currentTodo.Some? then ["## Current TODO", "Working on: " + PyStr(c.currentTodo.value)] else ["## Current TODO"];
    if c.todos.Some? then head + ["\n## All Todos"] + TodoEntryLines(c.todos.value) else head
  }

  function DeliverableEntryLine(d: DeliverableEntry): string
  {
    Memory.Mark(PyTruthy(d.achieved)) + " " + PyStr(d.description)
  }

  function DeliverableEntryLines(ds: seq<DeliverableEntry>): (lines: seq<string>)
    ensures |lines| == |ds|
    ensures forall i :: 0 <= i < |ds| ==> lines[i] == DeliverableEntryLine(ds[i])
  {
    if ds == [] then [] else DeliverableEntryLines(ds[..|ds| - 1]) + [DeliverableEntryLine(ds[|ds| - 1])]
  }

  /** `_format_external_context_from_dict`: None without a task description. */
  function ExternalFromDict(c: PlanContext): (parts: Option<seq<string>>)
    ensures parts.None? <==> c.taskDescription.None? || c.taskDescription.value == ""
    ensures parts.Some? ==> |parts.value| >= 2 && parts.value[..2] == ["## Overall Context", c.taskDescription.value]
  {
    if c.taskDescription.None? || c.taskDescription.value == "" then None
    else
      var head := ["## Overall Context", c.taskDescription.value];
      if c.deliverables.Some? then Some(head + ["\n## Deliverables"] + DeliverableEntryLines(c.deliverables.value)) else Some(head)
  }

  /** A summary the source treats as true. */
  predicate HasSummary(h: HistoryEntry) { h.summary.Some? && PyTruthy(h.summary.value) }

  function NoteLines(h: HistoryEntry): (lines: seq<string>)
    ensures |lines| == if HasSummary(h) then 2 else 1
  {
    var head := ["Todo " + PyStr(h.todoIndex) + ": " + PyStr(h.actionCount) + " actions, completed: " + PyStr(h.completed)];
    if HasSummary(h) then head + ["Summary: " + PyStr(h.summary.value)] else head
  }

  function NotesLines(hs: seq<HistoryEntry>): seq<string>
  {
    if hs == [] then [] else NotesLines(hs[..|hs| - 1]) + NoteLines(hs[|hs| - 1])
  }

  /** How many entries carry a summary. */
  function SummaryCount(hs: seq<HistoryEntry>): (n: nat)
    ensures n <= |hs|
  {
    if hs == [] then 0 else SummaryCount(hs[..|hs| - 1]) + (if HasSummary(hs[|hs| - 1]) then 1 else 0)
  }

  /** One line per entry, and one more per entry with a summary. */
  lemma {:induction false} NotesLength(hs: seq<HistoryEntry>)
    ensures |NotesLines(hs)| == |hs| + SummaryCount(hs)
  {
    if hs != [] {
      NotesLength(hs[..|hs| - 1]);
    }
  }

  /** `_format_execution_notes`: "" without history. */
  function ExecutionNotes(c: PlanContext): string
  {
    if c.history.None? || c.history.value == [] then "" else Join(NotesLines(c.history.value), "\n")
  }

  /** The todo entries' lines, one by one. */
  method TodoListing(ts: seq<TodoEntry>) returns (lines: seq<string>)
    ensures lines == TodoEntryLines(ts)
  {
    lines := [];
    for i := 0 to |ts|
      invariant lines == TodoEntryLines(ts[..i])
    {
      assert ts[..i + 1][..i] == ts[..i];
      lines := lines + [TodoEntryLine(ts[i])];
    }
    assert ts[..|ts|] == ts;
  }

  /** The deliverable entries' lines, one by one. */
  method DeliverableListing(ds: seq<DeliverableEntry>) returns (lines: seq<string>)
    ensures lines == DeliverableEntryLines(ds)
  {
    lines := [];
    for i := 0 to |ds|
      invariant lines == DeliverableEntryLines(ds[..i])
    {
      assert ds[..i + 1][..i] == ds[..i];
      lines := lines + [DeliverableEntryLine(ds[i])];
    }
    assert ds[..|ds|] == ds;
  }

  /** Building `_format_internal_context_from_dict`'s parts one by one. */
  method FormatInternalContextFromDict(c: PlanContext) returns (text: string)
    ensures text == Join(InternalFromDict(c), "\n")
  {
    var parts := ["## Current TODO"];
    if c.currentTodo.Some? {
      parts := parts + ["Working on: " + PyStr(c.currentTodo.value)];
      assert parts == ["## Current TODO", "Working on: " + PyStr(c.currentTodo.value)];
    }
    if c.todos.Some? {
      var lines := TodoListing(c.todos.value);
      parts := parts + ["\n## All Todos"] + lines;
    }
    return Join(parts, "\n");
  }

  /** Building `_format_external_context_from_dict`'s parts one by one. */
  method FormatExternalContextFromDict(c: PlanContext) returns (text: Option<string>)
    ensures text.None? <==> ExternalFromDict(c).None?
    ensures text.Some? ==> text.value == Join(ExternalFromDict(c).value, "\n")
  {
    if c.taskDescription.None? || c.taskDescription.value == "" {
      return None;
    }
    var parts := ["## Overall Context", c.taskDescription.value];
    if c.deliverables.Some? {
      var lines := DeliverableListing(c.deliverables.value);
      parts := parts + ["\n## Deliverables"] + lines;
    }
    return Some(Join(parts, "\n"));
  }

  /** Building `_format_execution_notes`' parts one by one. */
  method FormatExecutionNotes(c: PlanContext) returns (text: string)
    ensures text == ExecutionNotes(c)
    ensures c.history.None? || c.history.value == [] ==> text == ""
  {
    if c.history.None? || c.history.value == [] {
      return "";
    }
    var hs := c.history.value;
    var parts: seq<string> := [];
    for i := 0 to |hs|
      invariant parts == NotesLines(hs[..i])
    {
      assert hs[..i + 1][..i] == hs[..i];
      parts := parts + NoteLines(hs[i]);
    }
    assert hs[..|hs|] == hs;
    return Join(parts, "\n");
  }
}
