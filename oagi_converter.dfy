/**
 * `OagiActionConverter`: OAGI `Action`s, whose points are in a 0-1000
 * space, to `(command, is_last)` pairs for remote execution. It repeats
 * each action's commands `count` times like the pyautogui convertor, but
 * it counts only FINISH for the duplicate check, has no FAIL branch, and
 * returns an empty list for a batch that converts to nothing without a
 * failure.
 */
module OagiConverter {
  import opened Wrappers
  import opened Text
  import opened Decimals
  import opened ActionModel
  import opened CapsLock
  import opened ConverterBase
  import Json
  import PyautoguiConverter

  /**
   * The coordinate readers `parse_click_coords`, `parse_drag_coords` and
   * `parse_scroll_coords`, bound to the converter's scaler and strictness.
   * Their code is not part of this model: they are given as functions, a
   * failure being the error they raise.
   */
  datatype CoordParsers = CoordParsers(
    click: string -> Result<(int, int)>,
    drag: string -> Result<(int, int, int, int)>,
    scroll: string -> Result<(int, int, string)>)

  /** What converting one action yields, and the caps-lock flag afterwards. */
  type Converted = PyautoguiConverter.Converted

  const DuplicateFinish: Error :=
    ValueError("Duplicate finish() detected. Only one finish() is allowed per action sequence.")

  /** A click of the given kind at a sandbox point. */
  function ClickCommand(kind: ActionType, x: int, y: int): string
  {
    PyCall(PyautoguiConverter.ClickFunction(kind), "x=" + IntToString(x) + ", y=" + IntToString(y))
  }

  /** `pyautogui.typewrite(repr(text))` */
  function Typewrite(text: string): string
  {
    PyCall("typewrite", Json.Repr(text))
  }

  /**
   * The hotkey branch on the parsed keys: no non-empty key is a ValueError;
   * a lone caps lock is pressed in system mode and only toggles the session
   * flag in session mode, with no command; any other combination is one
   * `hotkey` call of the non-empty keys.
   */
  function KeysCommands(config: ConverterConfig, capsOn: bool, arg: string, keys: seq<string>): (c: Converted)
    ensures c.capsEnabled != capsOn <==> config.capslockMode == Session && PyautoguiConverter.LoneCapsLock(keys)
    ensures c.capsEnabled != capsOn ==> c.result == Ok([])
    ensures c.result.Ok? <==> PyautoguiConverter.Filled(keys) != []
    ensures c.result.Ok? && !(config.capslockMode == Session && PyautoguiConverter.LoneCapsLock(keys)) ==>
      c.result.value == [PyautoguiConverter.HotkeyCall(PyautoguiConverter.Filled(keys), config.hotkeyInterval)]
    ensures c.result.Err? ==> c.result.error.ValueError?
  {
    var filled := PyautoguiConverter.Filled(keys);
    if filled == [] then
      PyautoguiConverter.Converted(Err(ValueError("Invalid hotkey format: '" + arg + "'. Expected key names like 'ctrl+c', 'alt+tab'")), capsOn)
    else if PyautoguiConverter.LoneCapsLock(keys) && config.capslockMode == Session then
      PyautoguiConverter.Converted(Ok([]), !capsOn)
    else
      PyautoguiConverter.Converted(Ok([PyautoguiConverter.HotkeyCall(filled, config.hotkeyInterval)]), capsOn)
  }

  /** The hotkey branch: the keys parsed and checked against `valid` first. */
  function HotkeyCommands(config: ConverterConfig, valid: set<string>, capsOn: bool, arg: string): (c: Converted)
    ensures PyautoguiConverter.ParseHotkey(arg, valid).Ok? ==>
      c == KeysCommands(config, capsOn, arg, PyautoguiConverter.ParseHotkey(arg, valid).value)
    ensures PyautoguiConverter.ParseHotkey(arg, valid).Err? ==> c.capsEnabled == capsOn && c.result.IsValueError()
  {
    match PyautoguiConverter.ParseHotkey(arg, valid)
    case Err(e) => PyautoguiConverter.Converted(Err(e), capsOn)
    case Ok(keys) => KeysCommands(config, capsOn, arg, keys)
  }

  /** The wait branch: the argument's seconds, or the configured default when it is empty. */
  function WaitCommand(config: ConverterConfig, arg: string): (r: Result<seq<string>>)
    ensures r.Ok? <==> arg == [] || ParseFloat(arg).Some?
    ensures r.Ok? ==> r.value == ["WAIT(" + Decimals.Repr(if arg == [] then config.waitDuration else ParseFloat(arg).value) + ")"]
    ensures r.Err? ==> r.error.ValueError?
  {
    if arg == [] then Ok(["WAIT(" + Decimals.Repr(config.waitDuration) + ")"])
    else
      match ParseFloat(arg)
      case None => Err(ValueError("Invalid wait duration: '" + arg + "'. Expected numeric value in seconds."))
      case Some(d) => Ok(["WAIT(" + Decimals.Repr(d) + ")"])
  }

  /** The kinds `_convert_single_action` has a branch for. */
  predicate Supported(kind: ActionType)
  {
    PyautoguiConverter.IsClick(kind) || kind in {Drag, Hotkey, Type, Scroll, Wait, Finish, CallUser}
  }

  /**
   * Every branch of `_convert_single_action` but the hotkey one, on the
   * argument without its outer parentheses.
   */
  function Other(config: ConverterConfig, parsers: CoordParsers, capsOn: bool, a: Action, arg: string): (r: Result<seq<string>>)
    requires a.kind != Hotkey
    ensures PyautoguiConverter.IsClick(a.kind) ==>
      r == (match parsers.click(arg) case Ok((x, y)) => Ok([ClickCommand(a.kind, x, y)]) case Err(e) => Err(e))
    ensures a.kind == Type ==> r == Ok([Typewrite(Transform(config.capslockMode, capsOn, StripChars(arg, {'"', '\''})))])
    ensures a.kind == Wait ==> r == WaitCommand(config, arg)
    ensures a.kind == Finish ==> r == Ok(["DONE"])
    ensures a.kind == CallUser ==> r == Ok([])
    ensures !Supported(a.kind) ==> r.IsValueError()
  {
    if PyautoguiConverter.IsClick(a.kind) then
      match parsers.click(arg)
      case Err(e) => Err(e)
      case Ok((x, y)) => Ok([ClickCommand(a.kind, x, y)])
    else if a.kind == Drag then
      match parsers.drag(arg)
      case Err(e) => Err(e)
      case Ok((sx, sy, ex, ey)) => Ok([MoveTo(sx, sy), DragTo(ex, ey, config.dragDuration)])
    else if a.kind == Type then
      Ok([Typewrite(Transform(config.capslockMode, capsOn, StripChars(arg, {'"', '\''})))])
    else if a.kind == Scroll then
      match parsers.scroll(arg)
      case Err(e) => Err(e)
      case Ok((x, y, direction)) =>
        Ok([MoveTo(x, y), ScrollBy(if direction == "up" then config.scrollAmount else -config.scrollAmount)])
    else if a.kind == Wait then WaitCommand(config, arg)
    else if a.kind == Finish then Ok(["DONE"])
    else if a.kind == CallUser then Ok([])
    else
      Err(ValueError("Unknown action type: '" + Name(a.kind) + "'. Supported: click, left_double, left_triple, "
        + "right_single, drag, hotkey, type, scroll, wait, finish, call_user"))
  }

  /**
   * `_convert_single_action`, with the caps-lock flag before and after.
   * Only the hotkey branch can change the flag.
   */
  function Single(config: ConverterConfig, parsers: CoordParsers, valid: set<string>, capsOn: bool, a: Action): (c: Converted)
    ensures a.kind == Hotkey ==> c == HotkeyCommands(config, valid, capsOn, StripChars(a.argument, {'(', ')'}))
    ensures a.kind != Hotkey ==> c == PyautoguiConverter.Converted(Other(config, parsers, capsOn, a, StripChars(a.argument, {'(', ')'})), capsOn)
  {
    var arg := StripChars(a.argument, {'(', ')'});
    if a.kind == Hotkey then HotkeyCommands(config, valid, capsOn, arg)
    else PyautoguiConverter.Converted(Other(config, parsers, capsOn, a, arg), capsOn)
  }

  /** `_convert_single_action` as a conversion of the caps flag and an action. */
  function Convertor(config: ConverterConfig, parsers: CoordParsers, valid: set<string>): (convert: PyautoguiConverter.Conversion)
    ensures PyautoguiConverter.Total(convert)
    ensures forall caps: bool, a: Action :: convert(caps, a) == Single(config, parsers, valid, caps, a)
  {
    (caps: bool, a: Action) => Single(config, parsers, valid, caps, a)
  }

  // ---------------------------------------------------------------------
  // the batch
  // ---------------------------------------------------------------------

  /**
   * One iteration of `__call__`'s loop: a second FINISH aborts; otherwise
   * the action's commands, repeated, are appended, or its failure
   * recorded. `hasTerminal` remembers a FINISH only.
   */
  function FinishAdvance(convert: PyautoguiConverter.Conversion, p: PyautoguiConverter.Progress, a: Action): (q: PyautoguiConverter.Progress)
    requires PyautoguiConverter.Total(convert)
    ensures p.Aborted? ==> q == p
    ensures p.Progress? && p.hasTerminal && a.kind == Finish ==> q == PyautoguiConverter.Aborted(p.capsEnabled)
    ensures p.Progress? && !(p.hasTerminal && a.kind == Finish) ==>
      q.Progress? && q.hasTerminal == (p.hasTerminal || a.kind == Finish)
      && q.capsEnabled == convert(p.capsEnabled, a).capsEnabled
  {
    if p.Aborted? then p
    else if p.hasTerminal && a.kind == Finish then PyautoguiConverter.Aborted(p.capsEnabled)
    else
      var c := convert(p.capsEnabled, a);
      var hasFinish := p.hasTerminal || a.kind == Finish;
      match c.result
      case Ok(cmds) =>
        PyautoguiConverter.Progress(p.converted + PyautoguiConverter.Expand(cmds, PyautoguiConverter.Times(a)), p.failed, hasFinish, c.capsEnabled)
      case Err(e) =>
        PyautoguiConverter.Progress(p.converted, p.failed + [(PyautoguiConverter.ActionLabel(a), e.message)], hasFinish, c.capsEnabled)
  }

  /** The loop state after the given actions, from caps flag `caps0`. */
  function FinishRun(convert: PyautoguiConverter.Conversion, caps0: bool, actions: seq<Action>): PyautoguiConverter.Progress
    requires PyautoguiConverter.Total(convert)
  {
    if |actions| == 0 then PyautoguiConverter.Progress([], [], false, caps0)
    else FinishAdvance(convert, FinishRun(convert, caps0, actions[..|actions| - 1]), actions[|actions| - 1])
  }

  /**
   * The result of the loop: the duplicate error; a RuntimeError exactly
   * when nothing was converted and some action failed; otherwise the
   * commands, which may be none.
   */
  function Outcome(convert: PyautoguiConverter.Conversion, caps0: bool, actions: seq<Action>): (r: (Result<seq<(string, bool)>>, bool))
    requires PyautoguiConverter.Total(convert)
    ensures actions == [] ==> r == (Ok([]), caps0)
    ensures actions != [] && FinishRun(convert, caps0, actions).Aborted? ==> r.0 == Err(DuplicateFinish)
    ensures actions != [] && FinishRun(convert, caps0, actions).Progress? ==>
      (r.0.Err? <==> FinishRun(convert, caps0, actions).converted == [] && FinishRun(convert, caps0, actions).failed != [])
    ensures r.0.Ok? && actions != [] ==> r.0.value == FinishRun(convert, caps0, actions).converted
    ensures r.0.Err? && r.0 != Err(DuplicateFinish) ==> r.0.error.RuntimeError?
    ensures actions != [] ==> r.1 == FinishRun(convert, caps0, actions).capsEnabled
  {
    if actions == [] then (Ok([]), caps0)
    else
      match FinishRun(convert, caps0, actions)
      case Aborted(caps) => (Err(DuplicateFinish), caps)
      case Progress(converted, failed, _, caps) =>
        if converted == [] && failed != [] then
          (Err(RuntimeError("All action conversions failed (" + NatToString(|failed|) + "/" + NatToString(|actions|) + ")")), caps)
        else (Ok(converted), caps)
  }

  /** `__call__` of the converter, with the caps flag before and after. */
  function Batch(config: ConverterConfig, parsers: CoordParsers, valid: set<string>, caps0: bool, actions: seq<Action>): (r: (Result<seq<(string, bool)>>, bool))
  {
    Outcome(Convertor(config, parsers, valid), caps0, actions)
  }

  // ---------------------------------------------------------------------
  // properties
  // ---------------------------------------------------------------------

  /** One more action is one more loop iteration. */
  lemma RunStep(convert: PyautoguiConverter.Conversion, caps0: bool, actions: seq<Action>, k: nat)
    requires PyautoguiConverter.Total(convert) && k < |actions|
    ensures FinishRun(convert, caps0, actions[..k + 1]) == FinishAdvance(convert, FinishRun(convert, caps0, actions[..k]), actions[k])
  {
    assert actions[..k + 1][..k] == actions[..k];
  }

  /** Once aborted, the run stays aborted. */
  lemma {:induction false} AbortedStays(convert: PyautoguiConverter.Conversion, caps0: bool, actions: seq<Action>, i: nat)
    requires PyautoguiConverter.Total(convert) && i <= |actions|
    requires FinishRun(convert, caps0, actions[..i]).Aborted?
    ensures FinishRun(convert, caps0, actions) == FinishRun(convert, caps0, actions[..i])
    decreases |actions| - i
  {
    if i < |actions| {
      RunStep(convert, caps0, actions, i);
      AbortedStays(convert, caps0, actions, i + 1);
    } else {
      assert actions[..i] == actions;
    }
  }

  /** After a FINISH the run has seen one, or has already aborted. */
  lemma {:induction false} FinishRemembered(convert: PyautoguiConverter.Conversion, caps0: bool, actions: seq<Action>, i: nat, j: nat)
    requires PyautoguiConverter.Total(convert) && i < j <= |actions|
    requires actions[i].kind == Finish
    ensures var p := FinishRun(convert, caps0, actions[..j]); p.Aborted? || p.hasTerminal
    decreases j
  {
    RunStep(convert, caps0, actions, j - 1);
    if j - 1 > i {
      FinishRemembered(convert, caps0, actions, i, j - 1);
    }
  }

  /** A second FINISH aborts the batch with the duplicate error, whatever else it holds. */
  lemma SecondFinishRejected(config: ConverterConfig, parsers: CoordParsers, valid: set<string>, caps0: bool,
                             actions: seq<Action>, i: nat, j: nat)
    requires i < j < |actions| && actions[i].kind == Finish && actions[j].kind == Finish
    ensures Batch(config, parsers, valid, caps0, actions).0 == Err(DuplicateFinish)
  {
    var convert := Convertor(config, parsers, valid);
    FinishRemembered(convert, caps0, actions, i, j);
    RunStep(convert, caps0, actions, j);
    AbortedStays(convert, caps0, actions, j + 1);
  }

  /** FAIL has no branch here: it is an unknown type, a ValueError that leaves the flag alone. */
  lemma FailIsUnknown(config: ConverterConfig, parsers: CoordParsers, valid: set<string>, caps: bool, a: Action)
    requires a.kind == Fail
    ensures Single(config, parsers, valid, caps, a).result.IsValueError()
    ensures Single(config, parsers, valid, caps, a).capsEnabled == caps
  {
    var arg := StripChars(a.argument, {'(', ')'});
    assert !Supported(a.kind);
    assert Other(config, parsers, caps, a, arg).IsValueError();
  }

  /**
   * FAIL does not count as a terminal action: a FAIL followed by a FINISH
   * is not a duplicate; the FAIL is a collected failure and the batch is
   * DONE, marked last.
   */
  lemma FailThenFinish(config: ConverterConfig, parsers: CoordParsers, valid: set<string>, caps0: bool, fail: Action, finish: Action)
    requires fail.kind == Fail && finish.kind == Finish && finish.count == Some(1)
    ensures Batch(config, parsers, valid, caps0, [fail, finish]).0 == Ok([("DONE", true)])
  {
    var convert := Convertor(config, parsers, valid);
    FailIsUnknown(config, parsers, valid, caps0, fail);
    FinishIsDone(config, parsers, valid, caps0, finish);
    FailedThenDone(convert, caps0, fail, finish);
  }

  /**
   * A failing non-FINISH action then a FINISH converted once to DONE: the
   * run holds DONE marked last.
   */
  lemma FailedThenDone(convert: PyautoguiConverter.Conversion, caps0: bool, fail: Action, finish: Action)
    requires PyautoguiConverter.Total(convert)
    requires fail.kind != Finish && finish.kind == Finish && finish.count == Some(1)
    requires convert(caps0, fail).result.Err? && convert(caps0, fail).capsEnabled == caps0
    requires convert(caps0, finish) == PyautoguiConverter.Converted(Ok(["DONE"]), caps0)
    ensures var p := FinishRun(convert, caps0, [fail, finish]);
      p.Progress? && p.converted == [("DONE", true)]
  {
    var actions := [fail, finish];
    RunStep(convert, caps0, actions, 0);
    RunStep(convert, caps0, actions, 1);
    assert actions[..0] == [] && actions[..2] == actions;
    var p1 := FinishRun(convert, caps0, actions[..1]);
    assert p1.Progress? && p1.converted == [] && !p1.hasTerminal && p1.capsEnabled == caps0;
    assert PyautoguiConverter.Times(finish) == 1;
    PyautoguiConverter.ExpandShape(["DONE"], 1);
    assert PyautoguiConverter.Expand(["DONE"], 1) == [("DONE", true)];
  }

  /** FINISH is DONE and leaves the flag alone. */
  lemma FinishIsDone(config: ConverterConfig, parsers: CoordParsers, valid: set<string>, caps: bool, a: Action)
    requires a.kind == Finish
    ensures Single(config, parsers, valid, caps, a) == PyautoguiConverter.Converted(Ok(["DONE"]), caps)
  {
  }

  /** Non-FINISH actions that yield nothing and keep the flag leave the run empty. */
  lemma {:induction false} SilentRun(convert: PyautoguiConverter.Conversion, caps0: bool, actions: seq<Action>)
    requires PyautoguiConverter.Total(convert)
    requires forall k :: 0 <= k < |actions| ==> actions[k].kind != Finish
    requires forall k :: 0 <= k < |actions| ==> convert(caps0, actions[k]) == PyautoguiConverter.Converted(Ok([]), caps0)
    ensures FinishRun(convert, caps0, actions) == PyautoguiConverter.Progress([], [], false, caps0)
  {
    if |actions| > 0 {
      var n := |actions| - 1;
      assert actions[..n][..] == actions[..n];
      SilentRun(convert, caps0, actions[..n]);
      PyautoguiConverter.ExpandShape([], PyautoguiConverter.Times(actions[n]));
    }
  }

  /**
   * A batch of call_user actions only is an empty list, not an error: no
   * action failed.
   */
  lemma CallUserOnlyIsEmpty(config: ConverterConfig, parsers: CoordParsers, valid: set<string>, caps0: bool, actions: seq<Action>)
    requires forall k :: 0 <= k < |actions| ==> actions[k].kind == CallUser
    ensures Batch(config, parsers, valid, caps0, actions) == (Ok([]), caps0)
  {
    var convert := Convertor(config, parsers, valid);
    forall k | 0 <= k < |actions|
      ensures convert(caps0, actions[k]) == PyautoguiConverter.Converted(Ok([]), caps0)
    {
    }
    SilentRun(convert, caps0, actions);
  }

  /** In session mode a lone caps-lock press yields nothing and flips the flag. */
  lemma LoneCapsLockToggles(config: ConverterConfig, valid: set<string>, caps0: bool, arg: string)
    requires config.capslockMode == Session
    requires PyautoguiConverter.ParseHotkey(arg, valid).Ok?
    requires PyautoguiConverter.LoneCapsLock(PyautoguiConverter.ParseHotkey(arg, valid).value)
    ensures HotkeyCommands(config, valid, caps0, arg) == PyautoguiConverter.Converted(Ok([]), !caps0)
  {
    var keys := PyautoguiConverter.ParseHotkey(arg, valid).value;
    var c := KeysCommands(config, caps0, arg, keys);
    assert c.capsEnabled == !caps0 && c.result == Ok([]);
  }

  /**
   * The hotkey branch agrees with the pyautogui convertor's on the commands
   * and the flag; only the wording of the empty-combination error differs.
   */
  lemma KeysAgreeWithConvertor(config: ConverterConfig, pconfig: PyautoguiConverter.PyautoguiConfig, capsOn: bool, arg: string, keys: seq<string>)
    requires pconfig.hotkeyInterval == config.hotkeyInterval
    ensures var c := KeysCommands(config, capsOn, arg, keys);
      var d := PyautoguiConverter.KeysCommands(pconfig, config.capslockMode, capsOn, arg, keys);
      c.capsEnabled == d.capsEnabled && c.result.Ok? == d.result.Ok? && (c.result.Ok? ==> c.result == d.result)
  {
  }

  /** Plain text is typed as the text between single quotes, which reads back as the text. */
  lemma PlainTypewrite(text: string)
    requires Json.PlainText(text)
    ensures Typewrite(text) == TypeQuoted(text)
    ensures ReadQuotedBody(text) == Some(text)
  {
    Json.ReprPlain(text);
    QuoteOnlyRoundTrip(text);
  }

  /**
   * Every command `_convert_single_action` emits runs as pyautogui code,
   * except WAIT's and FINISH's DONE, which sleeps no time.
   */
  lemma CommandsRun(config: ConverterConfig, parsers: CoordParsers, valid: set<string>, caps: bool, a: Action, cmd: string)
    requires Single(config, parsers, valid, caps, a).result.Ok?
    requires cmd in Single(config, parsers, valid, caps, a).result.value
    ensures a.kind !in {Wait, Finish} ==> ActionStringToStep(cmd) == PyautoguiConverter.PyautoguiCode(cmd)
    ensures a.kind == Finish ==> ActionStringToStep(cmd) == PyautoguiConverter.Sleep(FromInt(0))
  {
    if a.kind == Finish {
      FinishIsDone(config, parsers, valid, caps, a);
      DoneSleepsZero();
    } else if a.kind != Wait {
      assert CallForm(cmd) by { CommandShape(config, parsers, valid, caps, a, cmd); }
      CallIsCode(cmd);
    }
  }

  /** Every command but WAIT's and DONE has the call shape. */
  lemma CommandShape(config: ConverterConfig, parsers: CoordParsers, valid: set<string>, caps: bool, a: Action, cmd: string)
    requires a.kind !in {Wait, Finish}
    requires Single(config, parsers, valid, caps, a).result.Ok?
    requires cmd in Single(config, parsers, valid, caps, a).result.value
    ensures CallForm(cmd)
  {
    var arg := StripChars(a.argument, {'(', ')'});
    if a.kind == Hotkey {
      HotkeyShape(config, valid, caps, arg, cmd);
    } else {
      OtherShape(config, parsers, caps, a, arg, cmd);
    }
  }

  lemma HotkeyShape(config: ConverterConfig, valid: set<string>, caps: bool, arg: string, cmd: string)
    requires HotkeyCommands(config, valid, caps, arg).result.Ok?
    requires cmd in HotkeyCommands(config, valid, caps, arg).result.value
    ensures CallForm(cmd)
  {
    var keys := PyautoguiConverter.ParseHotkey(arg, valid).value;
    HotkeyCallForm(PyautoguiConverter.Filled(keys), config.hotkeyInterval);
  }

  lemma OtherShape(config: ConverterConfig, parsers: CoordParsers, caps: bool, a: Action, arg: string, cmd: string)
    requires a.kind !in {Wait, Finish, Hotkey}
    requires Other(config, parsers, caps, a, arg).Ok?
    requires cmd in Other(config, parsers, caps, a, arg).value
    ensures CallForm(cmd)
  {
    if PyautoguiConverter.IsClick(a.kind) {
      var (x, y) := parsers.click(arg).value;
      CallFormOf(PyautoguiConverter.ClickFunction(a.kind), "x=" + IntToString(x) + ", y=" + IntToString(y));
    } else if a.kind == Drag {
      var (sx, sy, ex, ey) := parsers.drag(arg).value;
      MoveToForm(sx, sy);
      DragToForm(ex, ey, config.dragDuration);
    } else if a.kind == Scroll {
      var (x, y, direction) := parsers.scroll(arg).value;
      MoveToForm(x, y);
      ScrollByForm(if direction == "up" then config.scrollAmount else -config.scrollAmount);
    } else {
      assert a.kind == Type;
      CallFormOf("typewrite", Json.Repr(Transform(config.capslockMode, caps, StripChars(arg, {'"', '\''}))));
    }
  }

  // ---------------------------------------------------------------------
  // the converter object
  // ---------------------------------------------------------------------

  class OagiActionConverter {
    const config: ConverterConfig
    const parsers: CoordParsers
    /** `PYAUTOGUI_VALID_KEYS`. */
    const validKeys: set<string>
    const caps: CapsLockManager

    constructor (config: ConverterConfig, parsers: CoordParsers, validKeys: set<string>)
      ensures this.config == config && this.parsers == parsers && this.validKeys == validKeys
      ensures fresh(caps) && caps.mode == config.capslockMode && !caps.capsEnabled
    {
      this.config := config;
      this.parsers := parsers;
      this.validKeys := validKeys;
      caps := new CapsLockManager(config.capslockMode);
    }

    /** `_convert_single_action`; the hotkey branch may toggle the session caps lock. */
    method ConvertSingleAction(a: Action) returns (r: Result<seq<string>>)
      requires caps.mode == config.capslockMode
      modifies caps
      ensures PyautoguiConverter.Converted(r, caps.capsEnabled) == Single(config, parsers, validKeys, old(caps.capsEnabled), a)
    {
      var arg := StripChars(a.argument, {'(', ')'});
      if a.kind == Hotkey {
        var c := HotkeyCommands(config, validKeys, caps.capsEnabled, arg);
        if c.capsEnabled != caps.capsEnabled {
          caps.Toggle();
        }
        r := c.result;
      } else if a.kind == Type {
        var text := StripChars(arg, {'"', '\''});
        text := caps.TransformText(text);
        r := Ok([Typewrite(text)]);
      } else {
        r := Other(config, parsers, caps.capsEnabled, a, arg);
      }
    }

    /** `_convert_action`: the single conversion once, its commands repeated `count` times. */
    method ConvertAction(a: Action) returns (r: Result<seq<(string, bool)>>)
      requires caps.mode == config.capslockMode
      modifies caps
      ensures var c := Single(config, parsers, validKeys, old(caps.capsEnabled), a);
        && caps.capsEnabled == c.capsEnabled
        && r == (match c.result
                 case Ok(cmds) => Ok(PyautoguiConverter.Expand(cmds, PyautoguiConverter.Times(a)))
                 case Err(e) => Err(e))
    {
      var single := ConvertSingleAction(a);
      if single.Err? {
        return Err(single.error);
      }
      var out := PyautoguiConverter.RepeatCommands(single.value, PyautoguiConverter.Times(a));
      r := Ok(out);
    }

    /** `__call__` over a batch of actions. */
    method Call(actions: seq<Action>) returns (r: Result<seq<(string, bool)>>)
      requires caps.mode == config.capslockMode
      modifies caps
      ensures (r, caps.capsEnabled) == Batch(config, parsers, validKeys, old(caps.capsEnabled), actions)
    {
      ghost var convert := Convertor(config, parsers, validKeys);
      ghost var caps0 := caps.capsEnabled;
      if actions == [] {
        return Ok([]);
      }
      var converted: seq<(string, bool)> := [];
      var failed: seq<(string, string)> := [];
      var hasFinish := false;
      for i := 0 to |actions|
        invariant FinishRun(convert, caps0, actions[..i]) == PyautoguiConverter.Progress(converted, failed, hasFinish, caps.capsEnabled)
      {
        var a := actions[i];
        RunStep(convert, caps0, actions, i);
        if a.kind == Finish {
          if hasFinish {
            AbortedStays(convert, caps0, actions, i + 1);
            return Err(DuplicateFinish);
          }
          hasFinish := true;
        }
        var out := ConvertAction(a);
        if out.Ok? {
          converted := converted + out.value;
        } else {
          failed := failed + [(PyautoguiConverter.ActionLabel(a), out.error.message)];
        }
      }
      assert actions[..|actions|] == actions;
      if converted == [] && failed != [] {
        r := Err(RuntimeError("All action conversions failed (" + NatToString(|failed|) + "/" + NatToString(|actions|) + ")"));
      } else {
        r := Ok(converted);
      }
    }
  }
}
