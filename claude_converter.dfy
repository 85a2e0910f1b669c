/**
 * `ClaudeActionConverter`: Claude computer-use actions, whose points are in
 * the 1024x768 (XGA) space, to pyautogui command strings. The converter
 * remembers the last position an action moved to; a click without a
 * coordinate goes there, or to the sandbox centre when nothing is known.
 */
module ClaudeConverter {
  import opened Wrappers
  import opened Text
  import opened Decimals
  import opened ConverterBase
  import PyautoguiConverter

  const XgaWidth := 1024
  const XgaHeight := 768

  /**
   * `ClaudeAction`: only the type is required. Points are documented as x
   * in [0, 1024] and y in [0, 768]; the record does not enforce it.
   */
  datatype ClaudeAction = ClaudeAction(
    actionType: string,
    coordinate: Option<(int, int)>,
    text: Option<string>,
    scrollDirection: Option<string>,
    scrollAmount: Option<int>,
    duration: Option<int>,
    startCoordinate: Option<(int, int)>)

  /** An action of the given type with every other field missing. */
  function Bare(actionType: string): ClaudeAction
  {
    ClaudeAction(actionType, None, None, None, None, None, None)
  }

  /** The action types with a branch of their own. */
  const Handled: set<string> := {
    "screenshot", "mouse_move", "left_click", "double_click", "triple_click", "right_click",
    "middle_click", "left_click_drag", "type", "key", "scroll", "wait", "cursor_position" }

  /** What converting one action yields, and the cursor afterwards. */
  type Outcome = (Result<seq<string>>, Cursor)

  /** `scale_coordinate` from the XGA space onto the sandbox. */
  function Scaled(config: ConverterConfig, c: (int, int)): (p: (int, int))
    requires ValidConfig(config)
    ensures 0 <= p.0 < config.sandboxWidth && 0 <= p.1 < config.sandboxHeight
  {
    ScaleCoordinate(config, XgaWidth, XgaHeight, c.0, c.1)
  }

  /**
   * `_get_coords_or_last`: a given coordinate is scaled and becomes the last
   * position; without one, the last position or else the sandbox centre,
   * and the cursor is left alone.
   */
  function CoordsOrLast(config: ConverterConfig, cur: Cursor, coordinate: Option<(int, int)>): (r: ((int, int), Cursor))
    requires ValidConfig(config)
    ensures coordinate.Some? ==> r.0 == Scaled(config, coordinate.value) && r.1 == At(r.0)
    ensures coordinate.None? ==> r.0 == LastOrCenter(config, cur.lastX, cur.lastY) && r.1 == cur
    ensures OnScreen(config, cur) ==> OnScreen(config, r.1) && 0 <= r.0.0 < config.sandboxWidth && 0 <= r.0.1 < config.sandboxHeight
  {
    match coordinate
    case Some(c) => var p := Scaled(config, c); (p, At(p))
    case None => (LastOrCenter(config, cur.lastX, cur.lastY), cur)
  }

  /** `mouse_move`: the coordinate is required; the pointer moves to its scaled point, which becomes the last position. */
  function MouseMove(config: ConverterConfig, cur: Cursor, a: ClaudeAction): (r: Outcome)
    requires ValidConfig(config)
    ensures a.coordinate.None? ==> r.0.IsValueError() && r.1 == cur
    ensures a.coordinate.Some? ==> var p := Scaled(config, a.coordinate.value);
      r == (Ok([MoveTo(p.0, p.1)]), At(p))
  {
    match a.coordinate
    case None => (Err(ValueError("coordinate is required for mouse_move")), cur)
    case Some(c) => var p := Scaled(config, c); (Ok([MoveTo(p.0, p.1)]), At(p))
  }

  /** The click branches: one click, at the coordinate when given (then remembered), else at the last position or the centre. */
  function Click(config: ConverterConfig, cur: Cursor, a: ClaudeAction, t: string): (r: Outcome)
    requires ValidConfig(config) && IsClickName(t)
    ensures r.0.Ok? && |r.0.value| == 1
    ensures a.coordinate.Some? ==> var p := Scaled(config, a.coordinate.value);
      r.0.value[0] == ClickAt(t, p.0, p.1) && r.1 == At(p)
    ensures a.coordinate.None? ==> var p := LastOrCenter(config, cur.lastX, cur.lastY);
      r.0.value[0] == ClickAt(t, p.0, p.1) && r.1 == cur
  {
    var (p, next) := CoordsOrLast(config, cur, a.coordinate);
    (Ok([ClickAt(t, p.0, p.1)]), next)
  }

  /** Where a drag starts: the scaled start coordinate, else the last position, else the centre. */
  function DragStart(config: ConverterConfig, cur: Cursor, a: ClaudeAction): (p: (int, int))
    requires ValidConfig(config)
  {
    if a.startCoordinate.Some? then Scaled(config, a.startCoordinate.value)
    else LastOrCenter(config, cur.lastX, cur.lastY)
  }

  /**
   * `left_click_drag`: the end coordinate is required; the pointer moves to
   * the start and drags to the end, and only the end becomes the last
   * position.
   */
  function Drag(config: ConverterConfig, cur: Cursor, a: ClaudeAction): (r: Outcome)
    requires ValidConfig(config)
    ensures a.coordinate.None? ==> r.0.IsValueError() && r.1 == cur
    ensures a.coordinate.Some? ==> var s, e := DragStart(config, cur, a), Scaled(config, a.coordinate.value);
      r == (Ok([MoveTo(s.0, s.1), DragTo(e.0, e.1, config.dragDuration)]), At(e))
  {
    var s := DragStart(config, cur, a);
    match a.coordinate
    case None => (Err(ValueError("coordinate (end position) is required for left_click_drag")), cur)
    case Some(c) =>
      var e := Scaled(config, c);
      (Ok([MoveTo(s.0, s.1), DragTo(e.0, e.1, config.dragDuration)]), At(e))
  }

  /** `type`: the text is required and is typed from a quoted literal, backslashes and quotes escaped. */
  function TypeText(a: ClaudeAction): (r: Result<seq<string>>)
    ensures r.Ok? <==> a.text.Some?
    ensures r.Ok? ==> r.value == [TypeQuoted(QuoteEscaped(a.text.value))]
    ensures r.Err? ==> r.error.ValueError?
  {
    match a.text
    case None => Err(ValueError("text is required for type action"))
    case Some(text) => Ok([TypeQuoted(QuoteEscaped(text))])
  }

  /** `key`: the text is required; its separated keys make one hotkey call, and a text naming no key is a ValueError. */
  function Key(config: ConverterConfig, a: ClaudeAction): (r: Result<seq<string>>)
    ensures r.Ok? <==> a.text.Some? && SeparatedKeys(a.text.value) != []
    ensures r.Ok? ==> r.value == [PyautoguiConverter.HotkeyCall(SeparatedKeys(a.text.value), config.hotkeyInterval)]
    ensures r.Err? ==> r.error.ValueError?
  {
    match a.text
    case None => Err(ValueError("text is required for key action"))
    case Some(text) =>
      var keys := SeparatedKeys(text);
      if keys == [] then Err(ValueError("Invalid key combination: " + text))
      else Ok([PyautoguiConverter.HotkeyCall(keys, config.hotkeyInterval)])
  }

  /** `(direction or "down").strip().lower()`: a missing or empty direction is down. */
  function Direction(d: Option<string>): string
  {
    Lower(Strip(if d.Some? && d.value != "" then d.value else "down"))
  }

  /** The scroll amount: the action's own, else the configured one. */
  function Amount(config: ConverterConfig, a: ClaudeAction): int
  {
    if a.scrollAmount.Some? then a.scrollAmount.value else config.scrollAmount
  }

  /**
   * `scroll`: the coordinate is required and the direction must be up or
   * down; the pointer moves to the scaled point and scrolls the amount, up
   * positive and down negative. The last position is not changed.
   */
  function Scroll(config: ConverterConfig, a: ClaudeAction): (r: Result<seq<string>>)
    requires ValidConfig(config)
    ensures r.Ok? <==> a.coordinate.Some? && Direction(a.scrollDirection) in {"up", "down"}
    ensures r.Ok? ==> var p, n := Scaled(config, a.coordinate.value), Amount(config, a);
      r.value == [MoveTo(p.0, p.1), ScrollBy(if Direction(a.scrollDirection) == "up" then n else -n)]
    ensures r.Err? ==> r.error.ValueError?
  {
    match a.coordinate
    case None => Err(ValueError("coordinate is required for scroll action"))
    case Some(c) =>
      var p := Scaled(config, c);
      var direction := Direction(a.scrollDirection);
      var n := Amount(config, a);
      if direction == "up" then Ok([MoveTo(p.0, p.1), ScrollBy(n)])
      else if direction == "down" then Ok([MoveTo(p.0, p.1), ScrollBy(-n)])
      else Err(ValueError("Invalid scroll direction: " + direction))
  }

  /** `wait`: the action's whole seconds, else the configured duration. */
  function Wait(config: ConverterConfig, a: ClaudeAction): string
  {
    "WAIT(" + (if a.duration.Some? then IntToString(a.duration.value) else Decimals.Repr(config.waitDuration)) + ")"
  }

  /**
   * `_convert_single_action`. A failure leaves the cursor alone; the cursor
   * only ever becomes the scaled `coordinate` of the action; and it stays on
   * the sandbox. Screenshots, cursor queries and unknown types yield nothing.
   */
  function Convert(config: ConverterConfig, cur: Cursor, a: ClaudeAction): (r: Outcome)
    requires ValidConfig(config)
    ensures r.0.Err? ==> r.1 == cur && r.0.error.ValueError?
    ensures r.1 == cur || (a.coordinate.Some? && r.1 == At(Scaled(config, a.coordinate.value)))
    ensures OnScreen(config, cur) ==> OnScreen(config, r.1)
    ensures Lower(a.actionType) in {"screenshot", "cursor_position"} || Lower(a.actionType) !in Handled ==> r == (Ok([]), cur)
  {
    var t := Lower(a.actionType);
    if t == "mouse_move" then MouseMove(config, cur, a)
    else if IsClickName(t) then Click(config, cur, a, t)
    else if t == "left_click_drag" then Drag(config, cur, a)
    else if t == "type" then (TypeText(a), cur)
    else if t == "key" then (Key(config, a), cur)
    else if t == "scroll" then (Scroll(config, a), cur)
    else if t == "wait" then (Ok([Wait(config, a)]), cur)
    else (Ok([]), cur)
  }

  /** The conversion the batch loop applies. */
  function Convertor(config: ConverterConfig): (convert: ConverterBase.Conversion<Cursor, ClaudeAction>)
    requires ValidConfig(config)
    ensures Total(convert)
    ensures forall cur, a :: convert(cur, a) == Convert(config, cur, a)
  {
    (cur: Cursor, a: ClaudeAction) requires ValidConfig(config) => Convert(config, cur, a)
  }

  // ---------------------------------------------------------------------
  // properties
  // ---------------------------------------------------------------------

  /** A click without a coordinate after one with a coordinate clicks the same point again. */
  lemma ClickAgainInPlace(config: ConverterConfig, cur: Cursor, c: (int, int), t: string)
    requires ValidConfig(config) && IsClickName(t)
    ensures var first := Click(config, cur, ClaudeAction(t, Some(c), None, None, None, None, None), t);
      Click(config, first.1, Bare(t), t) == first
  {
  }

  /**
   * Every command a conversion emits runs as pyautogui code, except `wait`,
   * whose command is a sleep of its duration when the duration is not
   * negative.
   */
  lemma CommandsRun(config: ConverterConfig, cur: Cursor, a: ClaudeAction, cmd: string)
    requires ValidConfig(config)
    requires Convert(config, cur, a).0.Ok? && cmd in Convert(config, cur, a).0.value
    ensures Lower(a.actionType) != "wait" ==> ActionStringToStep(cmd) == PyautoguiConverter.PyautoguiCode(cmd)
    ensures Lower(a.actionType) == "wait" && a.duration.Some? && a.duration.value >= 0 ==>
      ActionStringToStep(cmd) == PyautoguiConverter.Sleep(FromInt(a.duration.value))
    ensures Lower(a.actionType) == "wait" && a.duration.None? && config.waitDuration.mantissa >= 0 && Positional(config.waitDuration) ==>
      ActionStringToStep(cmd).Sleep? && Value(ActionStringToStep(cmd).seconds) == Value(config.waitDuration)
  {
    var t := Lower(a.actionType);
    if t == "wait" {
      assert cmd == Wait(config, a);
      if a.duration.Some? && a.duration.value >= 0 {
        WholeWaitIsSleep(a.duration.value);
      } else if a.duration.None? && config.waitDuration.mantissa >= 0 && Positional(config.waitDuration) {
        WaitIsSleep(config.waitDuration);
      }
    } else {
      assert CallForm(cmd) by { CommandShape(config, cur, a, cmd); }
      CallIsCode(cmd);
    }
  }

  /** Every command but `wait`'s has the call shape. */
  lemma CommandShape(config: ConverterConfig, cur: Cursor, a: ClaudeAction, cmd: string)
    requires ValidConfig(config) && Lower(a.actionType) != "wait"
    requires Convert(config, cur, a).0.Ok? && cmd in Convert(config, cur, a).0.value
    ensures CallForm(cmd)
  {
    var t := Lower(a.actionType);
    if t == "mouse_move" {
      PointedShape(config, cur, a, cmd);
    } else if IsClickName(t) {
      ClickShape(config, cur, a, t, cmd);
    } else if t == "left_click_drag" {
      PointedShape(config, cur, a, cmd);
    } else {
      TextShape(config, a, cmd);
    }
  }

  /** The commands of a move or a drag have the call shape. */
  lemma PointedShape(config: ConverterConfig, cur: Cursor, a: ClaudeAction, cmd: string)
    requires ValidConfig(config)
    requires (MouseMove(config, cur, a).0.Ok? && cmd in MouseMove(config, cur, a).0.value)
      || (Drag(config, cur, a).0.Ok? && cmd in Drag(config, cur, a).0.value)
    ensures CallForm(cmd)
  {
    var p := Scaled(config, a.coordinate.value);
    var s := DragStart(config, cur, a);
    MoveToForm(p.0, p.1);
    MoveToForm(s.0, s.1);
    DragToForm(p.0, p.1, config.dragDuration);
  }

  /** The command of a click has the call shape. */
  lemma ClickShape(config: ConverterConfig, cur: Cursor, a: ClaudeAction, t: string, cmd: string)
    requires ValidConfig(config) && IsClickName(t)
    requires cmd in Click(config, cur, a, t).0.value
    ensures CallForm(cmd)
  {
    var p := CoordsOrLast(config, cur, a.coordinate).0;
    ClickForm(t, p.0, p.1);
  }

  /** The commands of type, key and scroll have the call shape. */
  lemma TextShape(config: ConverterConfig, a: ClaudeAction, cmd: string)
    requires ValidConfig(config)
    requires (TypeText(a).Ok? && cmd in TypeText(a).value) || (Key(config, a).Ok? && cmd in Key(config, a).value)
      || (Scroll(config, a).Ok? && cmd in Scroll(config, a).value)
    ensures CallForm(cmd)
  {
    if TypeText(a).Ok? && cmd in TypeText(a).value {
      TypeQuotedForm(QuoteEscaped(a.text.value));
    } else if Key(config, a).Ok? && cmd in Key(config, a).value {
      HotkeyCallForm(SeparatedKeys(a.text.value), config.hotkeyInterval);
    } else {
      var p, n := Scaled(config, a.coordinate.value), Amount(config, a);
      MoveToForm(p.0, p.1);
      ScrollByForm(if Direction(a.scrollDirection) == "up" then n else -n);
    }
  }

  /** A batch of screenshots and cursor queries converts to nothing, without error. */
  lemma ObservationsAreSkipped(config: ConverterConfig, cur: Cursor, actions: seq<ClaudeAction>)
    requires ValidConfig(config)
    requires forall i :: 0 <= i < |actions| ==> Lower(actions[i].actionType) in {"screenshot", "cursor_position"}
    ensures ConverterBase.Call(Convertor(config), cur, actions) == (Ok([]), cur)
  {
    SkippedRun(config, cur, actions);
    AllSkippedIsEmpty(Convertor(config), cur, actions);
  }

  lemma ObservationSkipped(config: ConverterConfig, cur: Cursor, a: ClaudeAction)
    requires ValidConfig(config)
    requires Lower(a.actionType) in {"screenshot", "cursor_position"}
    ensures Convertor(config)(cur, a) == (Ok([]), cur)
  {
  }

  lemma SkippedRun(config: ConverterConfig, cur: Cursor, actions: seq<ClaudeAction>)
    requires ValidConfig(config)
    requires forall i :: 0 <= i < |actions| ==> Lower(actions[i].actionType) in {"screenshot", "cursor_position"}
    ensures Run(Convertor(config), cur, actions) == Tally([], [], actions, cur)
  {
    forall i | 0 <= i < |actions| ensures Convertor(config)(cur, actions[i]) == (Ok([]), cur) {
      ObservationSkipped(config, cur, actions[i]);
    }
    SkippingRun(Convertor(config), cur, actions);
  }

  // ---------------------------------------------------------------------
  // the converter object
  // ---------------------------------------------------------------------

  class ClaudeActionConverter {
    const config: ConverterConfig
    var lastX: Option<int>
    var lastY: Option<int>

    constructor (config: ConverterConfig)
      requires ValidConfig(config)
      ensures this.config == config && lastX.None? && lastY.None?
    {
      this.config := config;
      lastX, lastY := None, None;
    }

    function Position(): Cursor
      reads this
    {
      Cursor(lastX, lastY)
    }

    /** `_get_coords_or_last`, remembering a given coordinate. */
    method CoordsOrLastPoint(coordinate: Option<(int, int)>) returns (p: (int, int))
      requires ValidConfig(config)
      modifies this
      ensures (p, Position()) == CoordsOrLast(config, old(Position()), coordinate)
    {
      if coordinate.Some? {
        p := Scaled(config, coordinate.value);
        lastX, lastY := Some(p.0), Some(p.1);
      } else if lastX.Some? && lastY.Some? {
        p := (lastX.value, lastY.value);
      } else {
        p := LastOrCenter(config, lastX, lastY);
      }
    }

    /** `_convert_single_action`, updating the last position in place. */
    method ConvertSingleAction(a: ClaudeAction) returns (r: Result<seq<string>>)
      requires ValidConfig(config)
      modifies this
      ensures (r, Position()) == Convert(config, old(Position()), a)
    {
      var t := Lower(a.actionType);
      if t == "mouse_move" {
        if a.coordinate.None? {
          return Err(ValueError("coordinate is required for mouse_move"));
        }
        var p := Scaled(config, a.coordinate.value);
        lastX, lastY := Some(p.0), Some(p.1);
        r := Ok([MoveTo(p.0, p.1)]);
      } else if IsClickName(t) {
        var p := CoordsOrLastPoint(a.coordinate);
        r := Ok([ClickAt(t, p.0, p.1)]);
      } else if t == "left_click_drag" {
        var s := DragStart(config, Position(), a);
        if a.coordinate.None? {
          return Err(ValueError("coordinate (end position) is required for left_click_drag"));
        }
        var e := Scaled(config, a.coordinate.value);
        lastX, lastY := Some(e.0), Some(e.1);
        r := Ok([MoveTo(s.0, s.1), DragTo(e.0, e.1, config.dragDuration)]);
      } else if t == "type" {
        r := TypeText(a);
      } else if t == "key" {
        r := Key(config, a);
      } else if t == "scroll" {
        r := Scroll(config, a);
      } else if t == "wait" {
        r := Ok([Wait(config, a)]);
      } else {
        r := Ok([]);
      }
    }

    /** `__call__`: every action converted in turn, failures collected, no-ops skipped. */
    method Call(actions: seq<ClaudeAction>) returns (r: Result<seq<string>>)
      requires ValidConfig(config)
      modifies this
      ensures (r, Position()) == ConverterBase.Call(Convertor(config), old(Position()), actions)
    {
      ghost var convert := Convertor(config);
      ghost var cur0 := Position();
      if actions == [] {
        return Ok([]);
      }
      var converted: seq<string> := [];
      var failed: seq<(ClaudeAction, string)> := [];
      var skipped: seq<ClaudeAction> := [];
      for i := 0 to |actions|
        invariant Run(convert, cur0, actions[..i]) == Tally(converted, failed, skipped, Position())
      {
        assert actions[..i + 1][..i] == actions[..i];
        var a := actions[i];
        var res := ConvertSingleAction(a);
        match res
        case Err(e) =>
          failed := failed + [(a, e.message)];
        case Ok(cmds) =>
          if cmds == [] {
            skipped := skipped + [a];
          } else {
            converted := converted + cmds;
          }
      }
      assert actions[..|actions|] == actions;
      if converted == [] && failed != [] {
        return Err(RuntimeError("All action conversions failed (" + NatToString(|failed|) + "/" + NatToString(|actions|) + ")"));
      }
      r := Ok(converted);
    }
  }
}
