/**
 * `GeminiActionConverter`: Gemini computer-use actions, whose points are in
 * a 0-1000 space, to pyautogui command strings. Besides pointer and
 * keyboard actions, Gemini has browser verbs (search, navigate, back and
 * forward) that become fixed key and typing sequences.
 */
module GeminiConverter {
  import opened Wrappers
  import opened Text
  import opened Decimals
  import opened ConverterBase
  import PyautoguiConverter

  const GeminiCoordSize := 1000

  /**
   * `GeminiAction`: only the type is required. Points are documented in
   * [0, 1000]; the record does not enforce it. `keys` is one combination
   * text such as `ctrl+c`.
   */
  datatype GeminiAction = GeminiAction(
    actionType: string,
    x: Option<int>,
    y: Option<int>,
    text: Option<string>,
    pressEnter: Option<bool>,
    clearBeforeTyping: Option<bool>,
    direction: Option<string>,
    magnitude: Option<int>,
    destinationX: Option<int>,
    destinationY: Option<int>,
    keys: Option<string>,
    url: Option<string>)

  /** An action of the given type with every other field missing. */
  function Bare(actionType: string): GeminiAction
  {
    GeminiAction(actionType, None, None, None, None, None, None, None, None, None, None, None)
  }

  /** What converting one action yields, and the cursor afterwards. */
  type Outcome = (Result<seq<string>>, Cursor)

  /** `scale_coordinate` from the 0-1000 space onto the sandbox. */
  function Scaled(config: ConverterConfig, x: int, y: int): (p: (int, int))
    requires ValidConfig(config)
    ensures 0 <= p.0 < config.sandboxWidth && 0 <= p.1 < config.sandboxHeight
  {
    ScaleCoordinate(config, GeminiCoordSize, GeminiCoordSize, x, y)
  }

  /** The action's point, when it has both coordinates. */
  predicate HasPoint(a: GeminiAction)
  {
    a.x.Some? && a.y.Some?
  }

  function Point(config: ConverterConfig, a: GeminiAction): (p: (int, int))
    requires ValidConfig(config) && HasPoint(a)
  {
    Scaled(config, a.x.value, a.y.value)
  }

  /** The drop point of `drag_and_drop`, when it has both coordinates. */
  predicate HasDestination(a: GeminiAction)
  {
    a.destinationX.Some? && a.destinationY.Some?
  }

  function Destination(config: ConverterConfig, a: GeminiAction): (p: (int, int))
    requires ValidConfig(config) && HasDestination(a)
  {
    Scaled(config, a.destinationX.value, a.destinationY.value)
  }

  /** `pyautogui.hotkey('k1', 'k2', interval=i)` for two fixed keys. */
  function Hotkey2(k1: string, k2: string, interval: Decimal): string
  {
    PyCall("hotkey", "'" + k1 + "', '" + k2 + "', interval=" + Decimals.Repr(interval))
  }

  /** A present flag that is true; a missing flag counts as false. */
  function Truthy(b: Option<bool>): bool
  {
    b.Some? && b.value
  }

  /** `(direction or "down").strip().lower()`: a missing or empty direction is down. */
  function Direction(d: Option<string>): string
  {
    Lower(Strip(if d.Some? && d.value != "" then d.value else "down"))
  }

  /** `click_at` and `hover_at`: the point is required and becomes the last position. */
  function PointAction(config: ConverterConfig, cur: Cursor, a: GeminiAction, hover: bool): (r: Outcome)
    requires ValidConfig(config)
    ensures !HasPoint(a) ==> r.0.IsValueError() && r.1 == cur
    ensures HasPoint(a) ==> var p := Point(config, a);
      r == (Ok([if hover then MoveTo(p.0, p.1) else ClickAt("left_click", p.0, p.1)]), At(p))
  {
    if !HasPoint(a) then
      (Err(ValueError(if hover then "x and y are required for hover_at" else "x and y are required for click_at")), cur)
    else
      var p := Point(config, a);
      (Ok([if hover then MoveTo(p.0, p.1) else ClickAt("left_click", p.0, p.1)]), At(p))
  }

  /** The commands of `type_text_at` at a point, in order. */
  function TypeAtCommands(config: ConverterConfig, p: (int, int), text: string, clear: bool, enter: bool): (cmds: seq<string>)
    ensures |cmds| == 2 + (if clear then 2 else 0) + (if enter then 1 else 0)
    ensures cmds[0] == ClickAt("left_click", p.0, p.1)
    ensures clear ==> cmds[1..3] == [Hotkey2("ctrl", "a", config.hotkeyInterval), Press("delete")]
    ensures cmds[if clear then 3 else 1] == TypeQuoted(QuoteEscaped(text))
    ensures enter ==> cmds[|cmds| - 1] == Press("enter")
  {
    [ClickAt("left_click", p.0, p.1)]
      + (if clear then [Hotkey2("ctrl", "a", config.hotkeyInterval), Press("delete")] else [])
      + [TypeQuoted(QuoteEscaped(text))]
      + (if enter then [Press("enter")] else [])
  }

  /**
   * `type_text_at`: the point and then the text are required; the point
   * becomes the last position, and two to five commands click, optionally
   * select all and delete, type, and optionally press enter.
   */
  function TypeTextAt(config: ConverterConfig, cur: Cursor, a: GeminiAction): (r: Outcome)
    requires ValidConfig(config)
    ensures r.0.Ok? <==> HasPoint(a) && a.text.Some?
    ensures r.0.Err? ==> r.0.error.ValueError? && r.1 == cur
    ensures r.0.Ok? ==> (2 <= |r.0.value| <= 5 && r.1 == At(Point(config, a))
      && r.0.value == TypeAtCommands(config, Point(config, a), a.text.value, Truthy(a.clearBeforeTyping), Truthy(a.pressEnter)))
  {
    if !HasPoint(a) then (Err(ValueError("x and y are required for type_text_at")), cur)
    else if a.text.None? then (Err(ValueError("text is required for type_text_at")), cur)
    else
      var p := Point(config, a);
      (Ok(TypeAtCommands(config, p, a.text.value, Truthy(a.clearBeforeTyping), Truthy(a.pressEnter))), At(p))
  }

  /** `scroll_document`: down, up, left and right press pagedown, pageup, left and right; any other direction is a ValueError. */
  function ScrollDocument(a: GeminiAction): (r: Result<seq<string>>)
    ensures r.Ok? <==> Direction(a.direction) in {"down", "up", "left", "right"}
    ensures r.Ok? ==> var d := Direction(a.direction);
      r.value == [Press(if d == "down" then "pagedown" else if d == "up" then "pageup" else d)]
    ensures r.Err? ==> r.error.ValueError?
  {
    var d := Direction(a.direction);
    if d == "down" then Ok([Press("pagedown")])
    else if d == "up" then Ok([Press("pageup")])
    else if d == "left" then Ok([Press("left")])
    else if d == "right" then Ok([Press("right")])
    else Err(ValueError("Invalid scroll direction: " + d))
  }

  /** The scroll amount: `max(1, magnitude // 100)` when a magnitude is given, else the configured one. */
  function ScrollAmount(config: ConverterConfig, a: GeminiAction): (n: int)
    ensures a.magnitude.Some? ==> n >= 1 && (a.magnitude.value >= 200 ==> n == a.magnitude.value / 100)
  {
    if a.magnitude.Some? then (if a.magnitude.value / 100 > 1 then a.magnitude.value / 100 else 1)
    else config.scrollAmount
  }

  /**
   * `scroll_at`: the point is required; the pointer moves there and scrolls
   * up by the amount, or down by it for any other direction, without
   * error. The last position is not changed.
   */
  function ScrollAt(config: ConverterConfig, a: GeminiAction): (r: Result<seq<string>>)
    requires ValidConfig(config)
    ensures r.Ok? <==> HasPoint(a)
    ensures r.Ok? ==> var p, n := Point(config, a), ScrollAmount(config, a);
      r.value == [MoveTo(p.0, p.1), ScrollBy(if Direction(a.direction) == "up" then n else -n)]
    ensures r.Err? ==> r.error.ValueError?
  {
    if !HasPoint(a) then Err(ValueError("x and y are required for scroll_at"))
    else
      var p, n := Point(config, a), ScrollAmount(config, a);
      Ok([MoveTo(p.0, p.1), ScrollBy(if Direction(a.direction) == "up" then n else -n)])
  }

  /** The address `navigate` types: the url, with `https://` in front unless it names http or https already. */
  function Address(url: string): (u: string)
    ensures StartsWith(u, "http://") || StartsWith(u, "https://")
    ensures StartsWith(url, "http://") || StartsWith(url, "https://") ==> u == url
  {
    if StartsWith(url, "http://") || StartsWith(url, "https://") then url
    else
      assert ("https://" + url)[..8] == "https://";
      "https://" + url
  }

  /** `navigate`: the url is required; focus the address bar, select it, type the address and press enter. */
  function Navigate(config: ConverterConfig, a: GeminiAction): (r: Result<seq<string>>)
    ensures r.Ok? <==> a.url.Some?
    ensures r.Ok? ==> |r.value| == 4 && r.value == [
      Hotkey2("ctrl", "l", config.hotkeyInterval), Hotkey2("ctrl", "a", config.hotkeyInterval),
      TypeQuoted(ReplaceChar(Address(a.url.value), '\'', "\\'")), Press("enter")]
    ensures r.Err? ==> r.error.ValueError?
  {
    match a.url
    case None => Err(ValueError("url is required for navigate action"))
    case Some(url) =>
      Ok([Hotkey2("ctrl", "l", config.hotkeyInterval), Hotkey2("ctrl", "a", config.hotkeyInterval),
          TypeQuoted(ReplaceChar(Address(url), '\'', "\\'")), Press("enter")])
  }

  /** The three commands of `search`: focus the address bar, type the search page, press enter. */
  function SearchCommands(config: ConverterConfig): (cmds: seq<string>)
  {
    [Hotkey2("ctrl", "l", config.hotkeyInterval), TypeQuoted("https://www.google.com"), Press("enter")]
  }

  /** `key_combination`: the keys are required; the separated keys make one hotkey call, and naming no key is a ValueError. */
  function KeyCombination(config: ConverterConfig, a: GeminiAction): (r: Result<seq<string>>)
    ensures r.Ok? <==> a.keys.Some? && SeparatedKeys(a.keys.value) != []
    ensures r.Ok? ==> r.value == [PyautoguiConverter.HotkeyCall(SeparatedKeys(a.keys.value), config.hotkeyInterval)]
    ensures r.Err? ==> r.error.ValueError?
  {
    match a.keys
    case None => Err(ValueError("keys is required for key_combination action"))
    case Some(text) =>
      var keys := SeparatedKeys(text);
      if keys == [] then Err(ValueError("Invalid key combination: " + text))
      else Ok([PyautoguiConverter.HotkeyCall(keys, config.hotkeyInterval)])
  }

  /**
   * `drag_and_drop`: both points are required; the pointer moves to the
   * start and drags to the destination, which becomes the last position.
   */
  function DragAndDrop(config: ConverterConfig, cur: Cursor, a: GeminiAction): (r: Outcome)
    requires ValidConfig(config)
    ensures r.0.Ok? <==> HasPoint(a) && HasDestination(a)
    ensures r.0.Err? ==> r.0.error.ValueError? && r.1 == cur
    ensures r.0.Ok? ==> var s, e := Point(config, a), Destination(config, a);
      r == (Ok([MoveTo(s.0, s.1), DragTo(e.0, e.1, config.dragDuration)]), At(e))
  {
    if !HasPoint(a) then (Err(ValueError("x and y (start position) are required for drag_and_drop")), cur)
    else if !HasDestination(a) then (Err(ValueError("destination_x and destination_y are required for drag_and_drop")), cur)
    else
      var s, e := Point(config, a), Destination(config, a);
      (Ok([MoveTo(s.0, s.1), DragTo(e.0, e.1, config.dragDuration)]), At(e))
  }

  /** The action types with a branch of their own. */
  const Handled: set<string> := {
    "open_web_browser", "click_at", "hover_at", "type_text_at", "scroll_document", "scroll_at",
    "wait_5_seconds", "go_back", "go_forward", "search", "navigate", "key_combination", "drag_and_drop" }

  /** The action types whose branch uses a point. */
  const Pointed: set<string> := {"click_at", "hover_at", "type_text_at", "drag_and_drop"}

  /**
   * The branches that do not touch the cursor. `search` is three commands,
   * back and forward are alt+left and alt+right, `wait_5_seconds` waits five
   * seconds, and `open_web_browser` and unknown types yield nothing.
   */
  function Fixed(config: ConverterConfig, a: GeminiAction, t: string): (r: Result<seq<string>>)
    requires ValidConfig(config)
    ensures t == "search" ==> r == Ok(SearchCommands(config)) && |SearchCommands(config)| == 3
    ensures t == "go_back" ==> r == Ok([Hotkey2("alt", "left", config.hotkeyInterval)])
    ensures t == "go_forward" ==> r == Ok([Hotkey2("alt", "right", config.hotkeyInterval)])
    ensures t == "wait_5_seconds" ==> r == Ok(["WAIT(5)"])
    ensures t == "open_web_browser" || t !in Handled ==> r == Ok([])
  {
    if t == "scroll_document" then ScrollDocument(a)
    else if t == "scroll_at" then ScrollAt(config, a)
    else if t == "wait_5_seconds" then Ok(["WAIT(5)"])
    else if t == "go_back" then Ok([Hotkey2("alt", "left", config.hotkeyInterval)])
    else if t == "go_forward" then Ok([Hotkey2("alt", "right", config.hotkeyInterval)])
    else if t == "search" then Ok(SearchCommands(config))
    else if t == "navigate" then Navigate(config, a)
    else if t == "key_combination" then KeyCombination(config, a)
    else Ok([])
  }

  /** The branches that use a point. */
  function Pointing(config: ConverterConfig, cur: Cursor, a: GeminiAction, t: string): (r: Outcome)
    requires ValidConfig(config) && t in Pointed
  {
    if t == "click_at" then PointAction(config, cur, a, false)
    else if t == "hover_at" then PointAction(config, cur, a, true)
    else if t == "type_text_at" then TypeTextAt(config, cur, a)
    else DragAndDrop(config, cur, a)
  }

  /**
   * `_convert_single_action`. A failure leaves the cursor alone; the cursor
   * only ever becomes the action's scaled point or its scaled destination;
   * it stays on the sandbox; the types without a point leave the cursor
   * alone.
   */
  function Convert(config: ConverterConfig, cur: Cursor, a: GeminiAction): (r: Outcome)
    requires ValidConfig(config)
    ensures r.0.Err? ==> r.1 == cur && r.0.error.ValueError?
    ensures r.1 == cur || (HasPoint(a) && r.1 == At(Point(config, a))) || (HasDestination(a) && r.1 == At(Destination(config, a)))
    ensures OnScreen(config, cur) ==> OnScreen(config, r.1)
    ensures Lower(a.actionType) in Pointed ==> r == Pointing(config, cur, a, Lower(a.actionType))
    ensures Lower(a.actionType) !in Pointed ==> r == (Fixed(config, a, Lower(a.actionType)), cur)
  {
    var t := Lower(a.actionType);
    if t in Pointed then Pointing(config, cur, a, t)
    else (Fixed(config, a, t), cur)
  }

  /** The conversion the batch loop applies. */
  function Convertor(config: ConverterConfig): (convert: ConverterBase.Conversion<Cursor, GeminiAction>)
    requires ValidConfig(config)
    ensures Total(convert)
    ensures forall cur, a :: convert(cur, a) == Convert(config, cur, a)
  {
    (cur: Cursor, a: GeminiAction) requires ValidConfig(config) => Convert(config, cur, a)
  }

  // ---------------------------------------------------------------------
  // properties
  // ---------------------------------------------------------------------

  /** The command of `wait_5_seconds` is a sleep of five seconds. */
  lemma WaitFiveSleeps()
    ensures ActionStringToStep("WAIT(5)") == PyautoguiConverter.Sleep(FromInt(5))
  {
    assert NatToString(5) == "5";
    assert "WAIT(" + NatToString(5) + ")" == "WAIT(5)";
    WholeWaitIsSleep(5);
  }

  /**
   * The address `navigate` types reads back, from its quoted literal, as
   * the url with the https prefix when the url holds no backslash and no
   * line break.
   */
  lemma NavigateTypesAddress(config: ConverterConfig, a: GeminiAction)
    requires a.url.Some? && '\\' !in a.url.value && '\n' !in a.url.value
    ensures var u := Address(a.url.value);
      && Navigate(config, a).Ok?
      && Navigate(config, a).value[2] == TypeQuoted(ReplaceChar(u, '\'', "\\'"))
      && ReadQuotedBody(ReplaceChar(u, '\'', "\\'")) == Some(u)
  {
    var url := a.url.value;
    var u := Address(url);
    if u != url {
      assert u == "https://" + url;
      assert '\\' !in u && '\n' !in u by {
        forall i | 0 <= i < |u| ensures u[i] != '\\' && u[i] != '\n' {
          if i >= 8 { assert u[i] == url[i - 8]; }
        }
      }
    }
    QuoteOnlyRoundTrip(u);
  }

  /**
   * Every command a conversion emits runs as pyautogui code, except the
   * five-second wait, which is a sleep.
   */
  lemma CommandsRun(config: ConverterConfig, cur: Cursor, a: GeminiAction, cmd: string)
    requires ValidConfig(config)
    requires Convert(config, cur, a).0.Ok? && cmd in Convert(config, cur, a).0.value
    ensures Lower(a.actionType) != "wait_5_seconds" ==> ActionStringToStep(cmd) == PyautoguiConverter.PyautoguiCode(cmd)
    ensures Lower(a.actionType) == "wait_5_seconds" ==> ActionStringToStep(cmd) == PyautoguiConverter.Sleep(FromInt(5))
  {
    var t := Lower(a.actionType);
    TypeRuns(config, cur, a, t, cmd);
  }

  lemma TypeRuns(config: ConverterConfig, cur: Cursor, a: GeminiAction, t: string, cmd: string)
    requires ValidConfig(config)
    requires t in Pointed ==> Pointing(config, cur, a, t).0.Ok? && cmd in Pointing(config, cur, a, t).0.value
    requires t !in Pointed ==> Fixed(config, a, t).Ok? && cmd in Fixed(config, a, t).value
    ensures t != "wait_5_seconds" ==> ActionStringToStep(cmd) == PyautoguiConverter.PyautoguiCode(cmd)
    ensures t == "wait_5_seconds" ==> ActionStringToStep(cmd) == PyautoguiConverter.Sleep(FromInt(5))
  {
    if t in Pointed {
      PointedRuns(config, cur, a, t, cmd);
      WaitNotPointed();
    } else {
      FixedRuns(config, a, t, cmd);
    }
  }

  /** The wait is not a type with a point: its name is longer than theirs. */
  lemma WaitNotPointed()
    ensures "wait_5_seconds" !in Pointed
  {
    assert forall t <- Pointed :: |t| < 14;
  }

  lemma PointedRuns(config: ConverterConfig, cur: Cursor, a: GeminiAction, t: string, cmd: string)
    requires ValidConfig(config) && t in Pointed
    requires Pointing(config, cur, a, t).0.Ok? && cmd in Pointing(config, cur, a, t).0.value
    ensures ActionStringToStep(cmd) == PyautoguiConverter.PyautoguiCode(cmd)
  {
    PointedShape(config, cur, a, t, cmd);
    CallIsCode(cmd);
  }

  lemma FixedRuns(config: ConverterConfig, a: GeminiAction, t: string, cmd: string)
    requires ValidConfig(config)
    requires Fixed(config, a, t).Ok? && cmd in Fixed(config, a, t).value
    ensures t != "wait_5_seconds" ==> ActionStringToStep(cmd) == PyautoguiConverter.PyautoguiCode(cmd)
    ensures t == "wait_5_seconds" ==> ActionStringToStep(cmd) == PyautoguiConverter.Sleep(FromInt(5))
  {
    if t == "wait_5_seconds" {
      assert cmd == "WAIT(5)";
      WaitFiveSleeps();
    } else {
      FixedShape(config, a, t, cmd);
      CallIsCode(cmd);
    }
  }

  lemma Hotkey2Form(k1: string, k2: string, interval: Decimal)
    ensures CallForm(Hotkey2(k1, k2, interval))
  {
    CallFormOf("hotkey", "'" + k1 + "', '" + k2 + "', interval=" + Decimals.Repr(interval));
  }

  /** The commands of the branches with a point have the call shape. */
  lemma PointedShape(config: ConverterConfig, cur: Cursor, a: GeminiAction, t: string, cmd: string)
    requires ValidConfig(config) && t in Pointed
    requires Pointing(config, cur, a, t).0.Ok? && cmd in Pointing(config, cur, a, t).0.value
    ensures CallForm(cmd)
  {
    var p := Point(config, a);
    if t == "type_text_at" {
      assert Pointing(config, cur, a, t) == TypeTextAt(config, cur, a);
      TypeAtShape(config, p, a.text.value, Truthy(a.clearBeforeTyping), Truthy(a.pressEnter), cmd);
    } else if t == "drag_and_drop" {
      assert Pointing(config, cur, a, t) == DragAndDrop(config, cur, a);
      var e := Destination(config, a);
      MoveToForm(p.0, p.1);
      DragToForm(e.0, e.1, config.dragDuration);
    } else {
      assert Pointing(config, cur, a, t) == PointAction(config, cur, a, t == "hover_at");
      MoveToForm(p.0, p.1);
      ClickForm("left_click", p.0, p.1);
    }
  }

  lemma TypeAtShape(config: ConverterConfig, p: (int, int), text: string, clear: bool, enter: bool, cmd: string)
    requires cmd in TypeAtCommands(config, p, text, clear, enter)
    ensures CallForm(cmd)
  {
    ClickForm("left_click", p.0, p.1);
    Hotkey2Form("ctrl", "a", config.hotkeyInterval);
    PressForm("delete");
    PressForm("enter");
    TypeQuotedForm(QuoteEscaped(text));
  }

  /** The commands of the branches without a point, but the wait, have the call shape. */
  lemma FixedShape(config: ConverterConfig, a: GeminiAction, t: string, cmd: string)
    requires ValidConfig(config) && t != "wait_5_seconds"
    requires Fixed(config, a, t).Ok? && cmd in Fixed(config, a, t).value
    ensures CallForm(cmd)
  {
    if t == "scroll_document" {
      var d := Direction(a.direction);
      PressForm(if d == "down" then "pagedown" else if d == "up" then "pageup" else d);
    } else if t == "scroll_at" {
      var p, n := Point(config, a), ScrollAmount(config, a);
      MoveToForm(p.0, p.1);
      ScrollByForm(if Direction(a.direction) == "up" then n else -n);
    } else if t == "navigate" || t == "key_combination" {
      BrowserShape(config, a, t, cmd);
    } else {
      Hotkey2Form("alt", "left", config.hotkeyInterval);
      Hotkey2Form("alt", "right", config.hotkeyInterval);
      Hotkey2Form("ctrl", "l", config.hotkeyInterval);
      TypeQuotedForm("https://www.google.com");
      PressForm("enter");
    }
  }

  lemma BrowserShape(config: ConverterConfig, a: GeminiAction, t: string, cmd: string)
    requires ValidConfig(config) && (t == "navigate" || t == "key_combination")
    requires Fixed(config, a, t).Ok? && cmd in Fixed(config, a, t).value
    ensures CallForm(cmd)
  {
    if t == "navigate" {
      Hotkey2Form("ctrl", "l", config.hotkeyInterval);
      Hotkey2Form("ctrl", "a", config.hotkeyInterval);
      TypeQuotedForm(ReplaceChar(Address(a.url.value), '\'', "\\'"));
      PressForm("enter");
    } else {
      HotkeyCallForm(SeparatedKeys(a.keys.value), config.hotkeyInterval);
    }
  }

  // ---------------------------------------------------------------------
  // the converter object
  // ---------------------------------------------------------------------

  class GeminiActionConverter {
    const config: ConverterConfig
    var lastX: Option<int>
    var lastY: Option<int>

    constructor (config: ConverterConfig)
      requires ValidConfig(config)
      ensures this.config == config && lastX.None? && lastY.None?
    {
      this.config := config;
      lastX, lastY := None, None;
    }

    function Position(): Cursor
      reads this
    {
      Cursor(lastX, lastY)
    }

    /** `type_text_at`, building its commands by appending. */
    method TypeTextAtCommands(a: GeminiAction) returns (r: Result<seq<string>>)
      requires ValidConfig(config)
      modifies this
      ensures (r, Position()) == TypeTextAt(config, old(Position()), a)
    {
      if !HasPoint(a) {
        return Err(ValueError("x and y are required for type_text_at"));
      }
      if a.text.None? {
        return Err(ValueError("text is required for type_text_at"));
      }
      var p := Point(config, a);
      lastX, lastY := Some(p.0), Some(p.1);
      var clear, enter := Truthy(a.clearBeforeTyping), Truthy(a.pressEnter);
      var commands := [ClickAt("left_click", p.0, p.1)];
      if clear {
        commands := commands + [Hotkey2("ctrl", "a", config.hotkeyInterval)];
        commands := commands + [Press("delete")];
      }
      ghost var head := commands;
      assert head == [ClickAt("left_click", p.0, p.1)] + (if clear then [Hotkey2("ctrl", "a", config.hotkeyInterval), Press("delete")] else []);
      commands := commands + [TypeQuoted(QuoteEscaped(a.text.value))];
      if enter {
        commands := commands + [Press("enter")];
      }
      assert commands == head + [TypeQuoted(QuoteEscaped(a.text.value))] + (if enter then [Press("enter")] else []);
      r := Ok(commands);
    }

    /** `_convert_single_action`, updating the last position in place. */
    method ConvertSingleAction(a: GeminiAction) returns (r: Result<seq<string>>)
      requires ValidConfig(config)
      modifies this
      ensures (r, Position()) == Convert(config, old(Position()), a)
    {
      var t := Lower(a.actionType);
      if t !in Pointed {
        r := Fixed(config, a, t);
      } else if t == "click_at" || t == "hover_at" {
        if !HasPoint(a) {
          return Err(ValueError(if t == "hover_at" then "x and y are required for hover_at" else "x and y are required for click_at"));
        }
        var p := Point(config, a);
        lastX, lastY := Some(p.0), Some(p.1);
        r := Ok([if t == "hover_at" then MoveTo(p.0, p.1) else ClickAt("left_click", p.0, p.1)]);
      } else if t == "type_text_at" {
        r := TypeTextAtCommands(a);
      } else {
        if !HasPoint(a) {
          return Err(ValueError("x and y (start position) are required for drag_and_drop"));
        }
        if !HasDestination(a) {
          return Err(ValueError("destination_x and destination_y are required for drag_and_drop"));
        }
        var s, e := Point(config, a), Destination(config, a);
        lastX, lastY := Some(e.0), Some(e.1);
        r := Ok([MoveTo(s.0, s.1), DragTo(e.0, e.1, config.dragDuration)]);
      }
    }

    /** `__call__`: every action converted in turn, failures collected, no-ops skipped. */
    method Call(actions: seq<GeminiAction>) returns (r: Result<seq<string>>)
      requires ValidConfig(config)
      modifies this
      ensures (r, Position()) == ConverterBase.Call(Convertor(config), old(Position()), actions)
    {
      ghost var convert := Convertor(config);
      ghost var cur0 := Position();
      if actions == [] {
        return Ok([]);
      }
      var converted: seq<string> := [];
      var failed: seq<(GeminiAction, string)> := [];
      var skipped: seq<GeminiAction> := [];
      for i := 0 to |actions|
        invariant Run(convert, cur0, actions[..i]) == Tally(converted, failed, skipped, Position())
      {
        assert actions[..i + 1][..i] == actions[..i];
        var a := actions[i];
        var res := ConvertSingleAction(a);
        match res
        case Err(e) =>
          failed := failed + [(a, e.message)];
        case Ok(cmds) =>
          if cmds == [] {
            skipped := skipped + [a];
          } else {
            converted := converted + cmds;
          }
      }
      assert actions[..|actions|] == actions;
      if converted == [] && failed != [] {
        return Err(RuntimeError("All action conversions failed (" + NatToString(|failed|) + "/" + NatToString(|actions|) + ")"));
      }
      r := Ok(converted);
    }
  }
}
