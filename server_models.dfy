/**
 * The records exchanged as Socket.IO events, with the field constraints
 * their schemas declare. A record is built from field values (omitted
 * fields take their defaults) and then validated: validation accepts it
 * when every constrained field meets its constraint, and otherwise names
 * every field that does not, in declaration order.
 */
module ServerModels {
  import opened Wrappers
  import opened Decimals

  /** The outcome of validating a record: the record, or its failing fields. */
  datatype Checked<T> = Accepted(value: T) | Rejected(fields: seq<Field>)

  /** The constrained fields of the records. */
  datatype Field =
    | Temperature | ActionIndex | TotalActions | X | Y | ClickType | X1 | Y1 | X2 | Y2 | Count | Direction | DurationMs | Status

  /** A field's name in the records. */
  function FieldName(f: Field): string
  {
    match f
    case Temperature => "temperature"
    case ActionIndex => "action_index"
    case TotalActions => "total_actions"
    case X => "x"
    case Y => "y"
    case ClickType => "click_type"
    case X1 => "x1"
    case Y1 => "y1"
    case X2 => "x2"
    case Y2 => "y2"
    case Count => "count"
    case Direction => "direction"
    case DurationMs => "duration_ms"
    case Status => "status"
  }

  // ---------------------------------------------------------------------
  // client-to-server
  // ---------------------------------------------------------------------

  const DefaultModel := "vision-model-v1"

  /** `InitEventData`; omitted, the model is "vision-model-v1" and the temperature 0.0. */
  datatype InitEventData = InitEventData(instruction: string, model: Option<string>, temperature: Option<Decimal>)

  function InitEvent(instruction: string, model: Option<string> := Some(DefaultModel),
                     temperature: Option<Decimal> := Some(Decimal(0, 0))): InitEventData
  {
    InitEventData(instruction, model, temperature)
  }

  /** A temperature, when given, lies in [0, 2]. */
  predicate ValidInit(e: InitEventData)
  {
    e.temperature.None? || 0.0 <= Value(e.temperature.value) <= 2.0
  }

  function ValidateInit(e: InitEventData): (r: Checked<InitEventData>)
    ensures r.Accepted? <==> ValidInit(e)
    ensures r.Accepted? ==> r.value == e
    ensures r.Rejected? ==> r.fields == [Temperature]
  {
    if e.temperature.Some? && (Value(e.temperature.value) < 0.0 || Value(e.temperature.value) > 2.0) then Rejected([Temperature])
    else Accepted(e)
  }

  /** With its defaults, an init event is valid and asks for the default model at temperature 0. */
  lemma InitDefaults(instruction: string)
    ensures ValidateInit(InitEvent(instruction)) == Accepted(InitEventData(instruction, Some("vision-model-v1"), Some(Decimal(0, 0))))
    ensures Value(InitEvent(instruction).temperature.value) == 0.0
  {
  }

  // ---------------------------------------------------------------------
  // server-to-client action events
  // ---------------------------------------------------------------------

  /** What each kind of action event carries besides its position in the batch. */
  datatype EventBody =
    | ClickBody(x: int, y: int, clickType: string)
    | DragBody(x1: int, y1: int, x2: int, y2: int)
    | HotkeyBody(combo: string, count: int)
    | TypeBody(text: string)
    | ScrollBody(sx: int, sy: int, direction: string, scrollCount: int)
    | WaitBody(durationMs: int)
    | FinishBody

  /** `BaseActionEventData` and its subclasses: the action's index, the batch size, and the body. */
  datatype ActionEvent = ActionEvent(actionIndex: int, totalActions: int, body: EventBody)

  const ClickTypes: set<string> := {"single", "double", "triple", "right"}
  const Directions: set<string> := {"up", "down", "left", "right"}

  /** A coordinate of the model's 0..1000 grid. */
  predicate OnGrid(v: int) { 0 <= v <= 1000 }

  /** The event schemas' constraints, field by field. */
  predicate ValidEvent(e: ActionEvent)
  {
    && e.actionIndex >= 0
    && e.totalActions >= 1
    && match e.body
       case ClickBody(x, y, clickType) => OnGrid(x) && OnGrid(y) && clickType in ClickTypes
       case DragBody(x1, y1, x2, y2) => OnGrid(x1) && OnGrid(y1) && OnGrid(x2) && OnGrid(y2)
       case HotkeyBody(_, count) => count >= 1
       case TypeBody(_) => true
       case ScrollBody(x, y, direction, count) => OnGrid(x) && OnGrid(y) && direction in Directions && count >= 1
       case WaitBody(durationMs) => durationMs >= 0
       case FinishBody => true
  }

  /** The field, when its value fails its constraint. */
  function Fault(ok: bool, name: Field): (r: seq<Field>)
    ensures r == [] <==> ok
  {
    if ok then [] else [name]
  }

  /** The failing fields of an event's body, in declaration order. */
  function BodyFaults(b: EventBody): seq<Field>
  {
    match b
    case ClickBody(x, y, clickType) =>
      Fault(0 <= x <= 1000, X) + Fault(0 <= y <= 1000, Y) + Fault(clickType in ClickTypes, ClickType)
    case DragBody(x1, y1, x2, y2) =>
      Fault(0 <= x1 <= 1000, X1) + Fault(0 <= y1 <= 1000, Y1) + Fault(0 <= x2 <= 1000, X2) + Fault(0 <= y2 <= 1000, Y2)
    case HotkeyBody(_, count) => Fault(count >= 1, Count)
    case TypeBody(_) => []
    case ScrollBody(x, y, direction, count) =>
      Fault(0 <= x <= 1000, X) + Fault(0 <= y <= 1000, Y) + Fault(direction in Directions, Direction) + Fault(count >= 1, Count)
    case WaitBody(durationMs) => Fault(durationMs >= 0, DurationMs)
    case FinishBody => []
  }

  /** Validation of an action event: every failing field is reported, the base class's first. */
  function ValidateEvent(e: ActionEvent): (r: Checked<ActionEvent>)
    ensures r.Accepted? <==> ValidEvent(e)
    ensures r.Accepted? ==> r.value == e
    ensures r.Rejected? ==> r.fields != []
    ensures r.Rejected? ==> (ActionIndex in r.fields <==> e.actionIndex < 0)
    ensures r.Rejected? ==> (TotalActions in r.fields <==> e.totalActions < 1)
  {
    var faults := Fault(e.actionIndex >= 0, ActionIndex) + Fault(e.totalActions >= 1, TotalActions) + BodyFaults(e.body);
    BodyFaultsNames(e.body);
    if faults == [] then Accepted(e) else Rejected(faults)
  }

  /** A body reports no fault exactly when it meets its constraints, and never blames a base field. */
  lemma BodyFaultsNames(b: EventBody)
    ensures BodyFaults(b) == [] <==> ValidEvent(ActionEvent(0, 1, b))
    ensures ActionIndex !in BodyFaults(b) && TotalActions !in BodyFaults(b)
  {
  }

  /** `ClickEventData`; omitted, the click type is "single". */
  function ClickEvent(actionIndex: int, totalActions: int, x: int, y: int, clickType: string := "single"): ActionEvent
  {
    ActionEvent(actionIndex, totalActions, ClickBody(x, y, clickType))
  }

  /** `HotkeyEventData`; omitted, the count is 1. */
  function HotkeyEvent(actionIndex: int, totalActions: int, combo: string, count: int := 1): ActionEvent
  {
    ActionEvent(actionIndex, totalActions, HotkeyBody(combo, count))
  }

  /** `ScrollEventData`; omitted, the count is 1. */
  function ScrollEvent(actionIndex: int, totalActions: int, x: int, y: int, direction: string, count: int := 1): ActionEvent
  {
    ActionEvent(actionIndex, totalActions, ScrollBody(x, y, direction, count))
  }

  /** The defaults are valid: a click, hotkey or scroll event built with them is accepted when its other fields are. */
  lemma EventDefaultsValid(i: int, n: int, x: int, y: int, combo: string, direction: string)
    requires i >= 0 && n >= 1 && OnGrid(x) && OnGrid(y) && direction in Directions
    ensures ValidateEvent(ClickEvent(i, n, x, y)).Accepted? && ClickEvent(i, n, x, y).body.clickType == "single"
    ensures ValidateEvent(HotkeyEvent(i, n, combo)).Accepted? && HotkeyEvent(i, n, combo).body.count == 1
    ensures ValidateEvent(ScrollEvent(i, n, x, y, direction)).Accepted? && ScrollEvent(i, n, x, y, direction).body.scrollCount == 1
  {
  }

  /** No constraint relates the index to the batch size: an index past the end is accepted. */
  lemma IndexNotBoundedByTotal()
    ensures ValidateEvent(ActionEvent(5, 1, FinishBody)).Accepted?
  {
  }

  /** A point off the grid is rejected, naming that coordinate. */
  lemma OffGridClickRejected(i: int, n: int, x: int, y: int)
    requires i >= 0 && n >= 1 && OnGrid(y) && !OnGrid(x)
    ensures ValidateEvent(ClickEvent(i, n, x, y)) == Rejected([X])
  {
  }

  // ---------------------------------------------------------------------
  // session status
  // ---------------------------------------------------------------------

  const Statuses: set<string> := {"initialized", "running", "completed", "failed"}

  /** `SessionStatusData`; omitted, no action has been executed. */
  datatype SessionStatusData = SessionStatusData(sessionId: string, status: string, instruction: string, createdAt: string,
                                                 actionsExecuted: int, lastActivity: string)

  function SessionStatus(sessionId: string, status: string, instruction: string, createdAt: string, lastActivity: string,
                         actionsExecuted: int := 0): SessionStatusData
  {
    SessionStatusData(sessionId, status, instruction, createdAt, actionsExecuted, lastActivity)
  }

  /** Only the status is constrained; the count of executed actions is not bounded. */
  function ValidateStatus(s: SessionStatusData): (r: Checked<SessionStatusData>)
    ensures r.Accepted? <==> s.status in Statuses
    ensures r.Accepted? ==> r.value == s
    ensures r.Rejected? ==> r.fields == [Status]
  {
    if s.status in Statuses then Accepted(s) else Rejected([Status])
  }

  /** A negative count of executed actions passes validation. */
  lemma NegativeActionsExecutedAccepted(id: string, instruction: string, at: string)
    ensures ValidateStatus(SessionStatus(id, "running", instruction, at, at, -1)).Accepted?
  {
  }
}
