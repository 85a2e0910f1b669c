/**
 * `PyautoguiActionHandler`: runs `Action`s on the local desktop through
 * PyAutoGUI. Every device call (a pointer move, a click, a key press, a
 * pause) is recorded as an `Event`, in order, in the handler's trace. The
 * handler's own state is the target screen, the coordinate scaler and the
 * caps-lock manager.
 */
module PyautoguiHandler {
  import opened Wrappers
  import opened Text
  import opened Decimals
  import opened ActionModel
  import opened CapsLock
  import opened Scaling
  import PyautoguiConverter

  /** The fields of the handler's `PyautoguiConfig` that it reads. */
  datatype HandlerConfig = HandlerConfig(
    dragDuration: Decimal, scrollAmount: int, waitDuration: Decimal, hotkeyInterval: Decimal,
    clickPreDelay: Decimal, postBatchDelay: Decimal, capslockMode: CapsMode)

  /** `sys.platform`, as far as the handler branches on it. */
  datatype Platform = Darwin | Win32 | OtherPlatform

  /** A device call. */
  datatype Event =
    | MoveTo(x: int, y: int)
    | Sleep(seconds: Decimal)
    | LeftClick
    | DoubleClick
    | TripleClick
    | RightClick
    | MacClick(x: int, y: int, clicks: nat)   // `_macos.macos_click`
    | DragTo(x: int, y: int, duration: Decimal)
    | HotkeyPress(keys: seq<string>, interval: Decimal)
    | Typewrite(text: string)                 // `pyautogui.typewrite`
    | TypewriteExact(text: string)            // the macOS and Windows `typewrite_exact`
    | WheelScroll(amount: int)

  /** A screen of the screen manager: its top-left corner and size. */
  datatype Screen = Screen(x: int, y: int, width: int, height: int)

  /**
   * What a conversion reads: the configuration, the platform, the shared
   * `parse_hotkey` (with the handler's `macos_ctrl_to_cmd` bound, and no
   * validation), which is not part of this model, and the current scaler.
   */
  datatype Context = Context(config: HandlerConfig, platform: Platform, parseHotkey: string -> seq<string>, scaler: Scaler)

  predicate ValidContext(ctx: Context) { ctx.scaler.Valid() }

  /** One execution of an action: the device calls it made and the caps flag after it. */
  datatype Step = Step(events: seq<Event>, capsOn: bool)

  // ---------------------------------------------------------------------
  // coordinates
  // ---------------------------------------------------------------------

  /** `_denormalize_coords`: the corner-safe screen point of a 0-1000 point. */
  function Denormalize(ctx: Context, x: nat, y: nat): (p: (int, int))
    requires ValidContext(ctx)
    ensures ctx.scaler.originX + 1 <= p.0 <= ctx.scaler.originX + ctx.scaler.targetWidth - 2
    ensures ctx.scaler.originY + 1 <= p.1 <= ctx.scaler.originY + ctx.scaler.targetHeight - 2
  {
    ctx.scaler.Scale(x as real, y as real, true)
  }

  /** `_parse_coords` */
  function PointOf(ctx: Context, arg: string): (r: Result<(int, int)>)
    requires ValidContext(ctx)
    ensures r.Ok? <==> ParseCoords(arg).Some?
    ensures r.Ok? ==> r.value == Denormalize(ctx, ParseCoords(arg).value.0, ParseCoords(arg).value.1)
    ensures r.Err? ==> r.error == ValueError("Invalid coordinates format: " + arg)
  {
    match ParseCoords(arg)
    case None => Err(ValueError("Invalid coordinates format: " + arg))
    case Some((x, y)) => Ok(Denormalize(ctx, x, y))
  }

  /** `_parse_drag_coords` */
  function DragOf(ctx: Context, arg: string): (r: Result<((int, int), (int, int))>)
    requires ValidContext(ctx)
    ensures r.Ok? <==> ParseDragCoords(arg).Some?
    ensures r.Err? ==> r.error == ValueError("Invalid drag coordinates format: " + arg)
  {
    match ParseDragCoords(arg)
    case None => Err(ValueError("Invalid drag coordinates format: " + arg))
    case Some((x1, y1, x2, y2)) => Ok((Denormalize(ctx, x1, y1), Denormalize(ctx, x2, y2)))
  }

  /** `_parse_scroll` */
  function ScrollOf(ctx: Context, arg: string): (r: Result<(int, int, string)>)
    requires ValidContext(ctx)
    ensures r.Ok? <==> ParseScroll(arg).Some?
    ensures r.Err? ==> r.error == ValueError("Invalid scroll format: " + arg)
  {
    match ParseScroll(arg)
    case None => Err(ValueError("Invalid scroll format: " + arg))
    case Some((x, y, direction)) =>
      var p := Denormalize(ctx, x, y);
      Ok((p.0, p.1, direction))
  }

  // ---------------------------------------------------------------------
  // one execution of one action
  // ---------------------------------------------------------------------

  /** Move, pause `click_pre_delay`, then press: the shape of every click. */
  function ClickEvents(ctx: Context, p: (int, int), kind: ActionType): (events: seq<Event>)
    requires PyautoguiConverter.IsClick(kind)
    ensures |events| == 3 && events[..2] == [MoveTo(p.0, p.1), Sleep(ctx.config.clickPreDelay)]
    ensures kind == Click ==> events[2] == LeftClick
    ensures kind == RightSingle ==> events[2] == RightClick
    ensures kind == LeftDouble ==> events[2] == (if ctx.platform == Darwin then MacClick(p.0, p.1, 2) else DoubleClick)
    ensures kind == LeftTriple ==> events[2] == (if ctx.platform == Darwin then MacClick(p.0, p.1, 3) else TripleClick)
  {
    var press :=
      if kind == Click then LeftClick
      else if kind == RightSingle then RightClick
      else if kind == LeftDouble then (if ctx.platform == Darwin then MacClick(p.0, p.1, 2) else DoubleClick)
      else (if ctx.platform == Darwin then MacClick(p.0, p.1, 3) else TripleClick);
    [MoveTo(p.0, p.1), Sleep(ctx.config.clickPreDelay), press]
  }

  /**
   * The hotkey branch: a lone caps lock is pressed in system mode and only
   * toggles the flag in session mode; any other key list is pressed as it is.
   */
  function HotkeyStep(ctx: Context, capsOn: bool, keys: seq<string>): (s: Step)
    ensures keys == ["capslock"] && ctx.config.capslockMode == Session ==> s == Step([], !capsOn)
    ensures !(keys == ["capslock"] && ctx.config.capslockMode == Session) ==>
      s == Step([HotkeyPress(keys, ctx.config.hotkeyInterval)], capsOn)
  {
    if keys == ["capslock"] && ctx.config.capslockMode == Session then Step([], !capsOn)
    else Step([HotkeyPress(keys, ctx.config.hotkeyInterval)], capsOn)
  }

  /** The text typed for a TYPE argument: outer quotes removed, then the caps transform. */
  function TypedText(ctx: Context, capsOn: bool, arg: string): (t: string)
    ensures |t| == |StripChars(arg, {'"', '\''})|
  {
    Transform(ctx.config.capslockMode, capsOn, StripChars(arg, {'"', '\''}))
  }

  /** The branches that read a point: the clicks, DRAG and SCROLL. */
  function PointerStep(ctx: Context, capsOn: bool, kind: ActionType, arg: string): (r: Result<Step>)
    requires ValidContext(ctx) && (PyautoguiConverter.IsClick(kind) || kind == Drag || kind == Scroll)
    ensures r.Ok? ==> r.value.capsOn == capsOn
    ensures r.Err? ==> r.error.ValueError?
    ensures PyautoguiConverter.IsClick(kind) ==>
      r == (match PointOf(ctx, arg) case Ok(p) => Ok(Step(ClickEvents(ctx, p, kind), capsOn)) case Err(e) => Err(e))
    ensures kind == Drag ==>
      r == (match DragOf(ctx, arg)
            case Ok((start, end)) => Ok(Step([MoveTo(start.0, start.1), DragTo(end.0, end.1, ctx.config.dragDuration)], capsOn))
            case Err(e) => Err(e))
    ensures kind == Scroll ==>
      r == (match ScrollOf(ctx, arg)
            case Ok((x, y, direction)) =>
              Ok(Step([MoveTo(x, y), WheelScroll(if direction == "up" then ctx.config.scrollAmount else -ctx.config.scrollAmount)], capsOn))
            case Err(e) => Err(e))
  {
    if PyautoguiConverter.IsClick(kind) then
      match PointOf(ctx, arg)
      case Err(e) => Err(e)
      case Ok(p) => Ok(Step(ClickEvents(ctx, p, kind), capsOn))
    else if kind == Drag then
      match DragOf(ctx, arg)
      case Err(e) => Err(e)
      case Ok((start, end)) =>
        Ok(Step([MoveTo(start.0, start.1), DragTo(end.0, end.1, ctx.config.dragDuration)], capsOn))
    else
      match ScrollOf(ctx, arg)
      case Err(e) => Err(e)
      case Ok((x, y, direction)) =>
        Ok(Step([MoveTo(x, y), WheelScroll(if direction == "up" then ctx.config.scrollAmount else -ctx.config.scrollAmount)], capsOn))
  }

  /**
   * The branches that cannot fail: HOTKEY, TYPE, FINISH and FAIL (which
   * reset caps lock), WAIT, and CALL_USER and the kinds without a branch,
   * which only print, not a device call.
   */
  function PlainStep(ctx: Context, capsOn: bool, kind: ActionType, arg: string): (s: Step)
    requires !(PyautoguiConverter.IsClick(kind) || kind == Drag || kind == Scroll)
    ensures kind != Hotkey && !IsTerminal(kind) ==> s.capsOn == capsOn
    ensures kind == Hotkey ==> s == HotkeyStep(ctx, capsOn, ctx.parseHotkey(arg))
    ensures kind == Type ==>
      var t := TypedText(ctx, capsOn, arg);
      s == Step([if ctx.platform == OtherPlatform then Typewrite(t) else TypewriteExact(t)], capsOn)
    ensures IsTerminal(kind) ==> s == Step([], false)
    ensures kind == Wait ==> s == Step([Sleep(ctx.config.waitDuration)], capsOn)
    ensures kind in {CallUser, MouseMove, LeftClickDrag, PressClick} ==> s == Step([], capsOn)
  {
    if kind == Hotkey then HotkeyStep(ctx, capsOn, ctx.parseHotkey(arg))
    else if kind == Type then
      var t := TypedText(ctx, capsOn, arg);
      Step([if ctx.platform == OtherPlatform then Typewrite(t) else TypewriteExact(t)], capsOn)
    else if IsTerminal(kind) then Step([], false)
    else if kind == Wait then Step([Sleep(ctx.config.waitDuration)], capsOn)
    else Step([], capsOn)
  }

  /**
   * `_execute_single_action`, on the argument without its outer
   * parentheses. A malformed argument is an error before any device call.
   */
  function Single(ctx: Context, capsOn: bool, a: Action): (r: Result<Step>)
    requires ValidContext(ctx)
    ensures r.Err? ==> r.error.ValueError?
    ensures r.Ok? && a.kind != Hotkey && !IsTerminal(a.kind) ==> r.value.capsOn == capsOn
    ensures PyautoguiConverter.IsClick(a.kind) || a.kind == Drag || a.kind == Scroll ==>
      r == PointerStep(ctx, capsOn, a.kind, StripChars(a.argument, {'(', ')'}))
    ensures !(PyautoguiConverter.IsClick(a.kind) || a.kind == Drag || a.kind == Scroll) ==>
      r == Ok(PlainStep(ctx, capsOn, a.kind, StripChars(a.argument, {'(', ')'})))
  {
    var arg := StripChars(a.argument, {'(', ')'});
    if PyautoguiConverter.IsClick(a.kind) || a.kind == Drag || a.kind == Scroll then PointerStep(ctx, capsOn, a.kind, arg)
    else Ok(PlainStep(ctx, capsOn, a.kind, arg))
  }

  // ---------------------------------------------------------------------
  // repetition and the batch
  // ---------------------------------------------------------------------

  /**
   * The trace so far: the device calls made, the caps flag, and the error
   * that stopped execution, if any.
   */
  datatype Run = Run(events: seq<Event>, capsOn: bool, error: Option<Error>)

  /** One execution of an action from a caps flag, as a function value. */
  type Execution = (bool, Action) --> Result<Step>

  ghost predicate Total(exec: Execution)
  {
    forall capsOn: bool, a: Action :: exec.requires(capsOn, a)
  }

  /** `_execute_single_action` of a handler in context `ctx`. */
  function Executor(ctx: Context): (exec: Execution)
    requires ValidContext(ctx)
    ensures Total(exec)
  {
    (capsOn: bool, a: Action) requires ValidContext(ctx) => Single(ctx, capsOn, a)
  }

  /** The executor of a context executes an action as `Single` does. */
  lemma Executes(ctx: Context, capsOn: bool, a: Action)
    requires ValidContext(ctx)
    ensures Executor(ctx)(capsOn, a) == Single(ctx, capsOn, a)
  {
  }

  /** A marker term: it brings a handler's definition of its executor into a proof where it is mentioned. */
  ghost predicate Wire(sc: Scaler) { true }

  /** One more execution of `a` after `r`, unless `r` was stopped by an error. */
  function Again(exec: Execution, r: Run, a: Action): Run
    requires Total(exec)
  {
    if r.error.Some? then r
    else
      match exec(r.capsOn, a)
      case Ok(s) => Run(r.events + s.events, s.capsOn, None)
      case Err(e) => r.(error := Some(e))
  }

  /** `_execute_action`: `a` executed `n` times, starting from `r`. */
  function Repeated(exec: Execution, r: Run, a: Action, n: nat): Run
    requires Total(exec)
  {
    if n == 0 then r else Again(exec, Repeated(exec, r, a, n - 1), a)
  }

  /** The runs of `__call__`'s loop after each action in turn. */
  function Through(exec: Execution, r: Run, actions: seq<Action>): Run
    requires Total(exec)
  {
    if actions == [] then r
    else
      var before := Through(exec, r, actions[..|actions| - 1]);
      Repeated(exec, before, actions[|actions| - 1], PyautoguiConverter.Times(actions[|actions| - 1]))
  }

  /**
   * `__call__`: every action executed `count` times in order; the first
   * error stops the batch and is raised; otherwise a pause of
   * `post_batch_delay` follows when it is positive.
   */
  function Batch(ctx: Context, start: Run, actions: seq<Action>): (r: Run)
    requires ValidContext(ctx)
  {
    var r := Through(Executor(ctx), start, actions);
    if r.error.None? && Value(ctx.config.postBatchDelay) > 0.0 then r.(events := r.events + [Sleep(ctx.config.postBatchDelay)])
    else r
  }

  /** `n` copies of `events`, one after another. */
  function Copies(events: seq<Event>, n: nat): (r: seq<Event>)
    ensures |r| == n * |events|
  {
    if n == 0 then [] else Copies(events, n - 1) + events
  }

  // ---------------------------------------------------------------------
  // properties
  // ---------------------------------------------------------------------

  /**
   * An action whose execution succeeds and leaves the caps flag as it was
   * makes the same device calls on every repetition: `n` executions are
   * `n` copies of one.
   */
  lemma {:induction false} RepeatsCopy(exec: Execution, events: seq<Event>, capsOn: bool, a: Action, n: nat)
    requires Total(exec)
    requires exec(capsOn, a) == Ok(Step(events, capsOn))
    ensures Repeated(exec, Run([], capsOn, None), a, n) == Run(Copies(events, n), capsOn, None)
  {
    if n > 0 {
      RepeatsCopy(exec, events, capsOn, a, n - 1);
    }
  }

  /** A CLICK with a well-formed point, count `n`: `n` times move, pause, click. */
  lemma ClickRepeats(ctx: Context, capsOn: bool, a: Action, n: nat)
    requires ValidContext(ctx)
    requires a.kind == Click && ParseCoords(StripChars(a.argument, {'(', ')'})).Some?
    ensures var p := PointOf(ctx, StripChars(a.argument, {'(', ')'})).value;
      Repeated(Executor(ctx), Run([], capsOn, None), a, n)
      == Run(Copies([MoveTo(p.0, p.1), Sleep(ctx.config.clickPreDelay), LeftClick], n), capsOn, None)
  {
    var p := PointOf(ctx, StripChars(a.argument, {'(', ')'})).value;
    var events := ClickEvents(ctx, p, a.kind);
    assert events == [MoveTo(p.0, p.1), Sleep(ctx.config.clickPreDelay), LeftClick];
    RepeatsCopy(Executor(ctx), events, capsOn, a, n);
  }

  /** In session mode, a lone caps-lock press executed twice leaves the flag as it was, with no device call. */
  lemma CapsLockTwiceRestores(ctx: Context, capsOn: bool, a: Action)
    requires ValidContext(ctx) && ctx.config.capslockMode == Session
    requires a.kind == Hotkey && ctx.parseHotkey(StripChars(a.argument, {'(', ')'})) == ["capslock"]
    ensures Repeated(Executor(ctx), Run([], capsOn, None), a, 1) == Run([], !capsOn, None)
    ensures Repeated(Executor(ctx), Run([], capsOn, None), a, 2) == Run([], capsOn, None)
  {
  }

  /** Typing is upper-cased exactly while the session flag is on. */
  lemma TypeUnderCaps(ctx: Context, capsOn: bool, typing: Action)
    requires ValidContext(ctx) && ctx.config.capslockMode == Session && ctx.platform == OtherPlatform
    requires typing.kind == Type
    ensures var text := StripChars(StripChars(typing.argument, {'(', ')'}), {'"', '\''});
      Single(ctx, capsOn, typing) == Ok(Step([Typewrite(if capsOn then Upper(text) else text)], capsOn))
  {
    var arg := StripChars(typing.argument, {'(', ')'});
    assert Single(ctx, capsOn, typing) == Ok(PlainStep(ctx, capsOn, Type, arg));
  }

  /** FINISH and FAIL switch the session flag off and make no device call. */
  lemma TerminalResets(ctx: Context, capsOn: bool, a: Action)
    requires ValidContext(ctx) && IsTerminal(a.kind)
    ensures Single(ctx, capsOn, a) == Ok(Step([], false))
  {
    assert Single(ctx, capsOn, a) == Ok(PlainStep(ctx, capsOn, a.kind, StripChars(a.argument, {'(', ')'})));
  }

  /** Once a run has stopped, the actions after it change nothing. */
  lemma {:induction false} ThroughStops(exec: Execution, start: Run, actions: seq<Action>, rest: seq<Action>)
    requires Total(exec) && Through(exec, start, actions).error.Some?
    ensures Through(exec, start, actions + rest) == Through(exec, start, actions)
    decreases |rest|
  {
    if rest == [] {
      assert actions + rest == actions;
    } else {
      var front := actions + rest[..|rest| - 1];
      ThroughStops(exec, start, actions, rest[..|rest| - 1]);
      assert (actions + rest)[..|actions + rest| - 1] == front;
      StoppedStays(exec, Through(exec, start, front), rest[|rest| - 1], PyautoguiConverter.Times(rest[|rest| - 1]));
    }
  }

  /** The first action that fails stops the batch: nothing after it runs, and no closing pause is made. */
  lemma ErrorStops(ctx: Context, start: Run, actions: seq<Action>, rest: seq<Action>)
    requires ValidContext(ctx)
    requires Through(Executor(ctx), start, actions).error.Some?
    ensures Batch(ctx, start, actions + rest) == Through(Executor(ctx), start, actions)
  {
    ThroughStops(Executor(ctx), start, actions, rest);
  }

  /** A stopped run stays as it is. */
  lemma {:induction false} StoppedStays(exec: Execution, r: Run, a: Action, n: nat)
    requires Total(exec) && r.error.Some?
    ensures Repeated(exec, r, a, n) == r
  {
    if n > 0 {
      StoppedStays(exec, r, a, n - 1);
    }
  }

  /** Once a repetition fails, further repetitions change nothing. */
  lemma {:induction false} RepeatedStopped(exec: Execution, r: Run, a: Action, i: nat, m: nat)
    requires Total(exec) && i <= m && Repeated(exec, r, a, i).error.Some?
    ensures Repeated(exec, r, a, m) == Repeated(exec, r, a, i)
  {
    if i < m {
      RepeatedStopped(exec, r, a, i, m - 1);
    }
  }

  /** One more action is one more turn of the loop. */
  lemma ThroughStep(exec: Execution, r: Run, actions: seq<Action>, k: nat)
    requires Total(exec) && k < |actions|
    ensures Through(exec, r, actions[..k + 1]) == Repeated(exec, Through(exec, r, actions[..k]), actions[k], PyautoguiConverter.Times(actions[k]))
  {
    assert actions[..k + 1][..k] == actions[..k];
  }

  /** An action that fails on its first execution stops there, however many repetitions were asked for. */
  lemma {:induction false} FailingRepeats(exec: Execution, r: Run, a: Action, n: nat)
    requires Total(exec) && r.error.None? && exec(r.capsOn, a).Err? && n >= 1
    ensures Repeated(exec, r, a, n) == r.(error := Some(exec(r.capsOn, a).error))
  {
    if n > 1 {
      FailingRepeats(exec, r, a, n - 1);
    }
  }

  /**
   * A click whose argument has no point raises "Invalid coordinates
   * format" before any device call.
   */
  lemma InvalidPointRaises(ctx: Context, capsOn: bool, a: Action)
    requires ValidContext(ctx) && PyautoguiConverter.Times(a) >= 1
    requires PyautoguiConverter.IsClick(a.kind) && ParseCoords(StripChars(a.argument, {'(', ')'})).None?
    ensures Batch(ctx, Run([], capsOn, None), [a]) == Run([], capsOn, Some(ValueError("Invalid coordinates format: " + StripChars(a.argument, {'(', ')'}))))
  {
    var r0 := Run([], capsOn, None);
    assert [a][..0] == [];
    var exec := Executor(ctx);
    assert Through(exec, r0, [a]) == Repeated(exec, r0, a, PyautoguiConverter.Times(a));
    assert exec(capsOn, a) == Err(ValueError("Invalid coordinates format: " + StripChars(a.argument, {'(', ')'})));
    FailingRepeats(exec, r0, a, PyautoguiConverter.Times(a));
  }

  // ---------------------------------------------------------------------
  // the handler object
  // ---------------------------------------------------------------------

  class PyautoguiActionHandler {
    const config: HandlerConfig
    const platform: Platform
    const parseHotkey: string -> seq<string>
    var screenWidth: int
    var screenHeight: int
    var originX: int
    var originY: int
    /** `_coord_scaler` */
    var scaler: Scaler
    const caps: CapsLockManager
    /** The device calls made so far. */
    var events: seq<Event>
    /** `_execute_single_action` for each scaler the handler may hold. */
    ghost const exec: Scaler -> Execution

    /** The scaler maps the 0-1000 space onto the current target screen. */
    ghost predicate Valid()
      reads this`scaler, this`screenWidth, this`screenHeight, this`originX, this`originY
    {
      && scaler == Scaler(1000, 1000, screenWidth, screenHeight, originX, originY)
      && scaler.Valid()
      && (forall sc: Scaler :: Total(exec(sc)))
      && (forall sc: Scaler {:trigger Wire(sc)} :: sc.Valid() ==> exec(sc) == Executor(Context(config, platform, parseHotkey, sc)))
    }

    function Ctx(): (ctx: Context)
      reads this`scaler
      ensures ctx.scaler == scaler && ctx.config == config
    {
      Context(config, platform, parseHotkey, scaler)
    }

    /** A handler for a screen of `width` by `height` pixels (`pyautogui.size()`), at the origin. */
    constructor (config: HandlerConfig, platform: Platform, parseHotkey: string -> seq<string>, width: int, height: int)
      requires width >= 3 && height >= 3
      ensures Valid() && fresh(caps)
      ensures this.config == config && this.platform == platform && this.parseHotkey == parseHotkey
      ensures screenWidth == width && screenHeight == height && originX == 0 && originY == 0
      ensures scaler == HandlerScaler(width, height)
      ensures caps.mode == config.capslockMode && !caps.capsEnabled && events == []
    {
      this.config := config;
      this.platform := platform;
      this.parseHotkey := parseHotkey;
      screenWidth, screenHeight := width, height;
      originX, originY := 0, 0;
      scaler := Scaler(1000, 1000, width, height, 0, 0);
      caps := new CapsLockManager(config.capslockMode);
      events := [];
      exec := (sc: Scaler) => Executor(Context(config, platform, parseHotkey, if sc.Valid() then sc else HandlerScaler(3, 3)));
    }

    /** The trace and flag as a run that has not failed. */
    function Current(): Run
      reads this`events, caps
    {
      Run(events, caps.capsEnabled, None)
    }

    /** `_execute_single_action`: the device calls are appended to the trace. */
    method ExecuteSingleAction(a: Action) returns (err: Option<Error>)
      requires Valid() && caps.mode == config.capslockMode
      modifies this`events, caps
      ensures Run(events, caps.capsEnabled, err) == Again(exec(scaler), old(Current()), a)
    {
      ghost var ctx, capsOn := Ctx(), caps.capsEnabled;
      var arg := StripChars(a.argument, {'(', ')'});
      if PyautoguiConverter.IsClick(a.kind) || a.kind == Drag || a.kind == Scroll {
        assert exec(scaler)(capsOn, a) == PointerStep(ctx, capsOn, a.kind, arg) by {
          assert Wire(scaler);
          Executes(ctx, capsOn, a);
        }
        err := ExecutePointer(a.kind, arg);
      } else {
        assert exec(scaler)(capsOn, a) == Ok(PlainStep(ctx, capsOn, a.kind, arg)) by {
          assert Wire(scaler);
          Executes(ctx, capsOn, a);
        }
        ExecutePlain(a.kind, arg);
        err := None;
      }
    }

    /** The branches that read a point; a malformed one is raised before any device call. */
    method ExecutePointer(kind: ActionType, arg: string) returns (err: Option<Error>)
      requires Valid() && (PyautoguiConverter.IsClick(kind) || kind == Drag || kind == Scroll)
      modifies this`events
      ensures var r := PointerStep(Ctx(), caps.capsEnabled, kind, arg);
        && (r.Ok? ==> err.None? && events == old(events) + r.value.events)
        && (r.Err? ==> err == Some(r.error) && events == old(events))
    {
      var ctx := Ctx();
      if PyautoguiConverter.IsClick(kind) {
        var p := PointOf(ctx, arg);
        if p.Err? {
          return Some(p.error);
        }
        events := events + ClickEvents(ctx, p.value, kind);
      } else if kind == Drag {
        var d := DragOf(ctx, arg);
        if d.Err? {
          return Some(d.error);
        }
        var (start, end) := d.value;
        events := events + [MoveTo(start.0, start.1), DragTo(end.0, end.1, config.dragDuration)];
      } else {
        var sc := ScrollOf(ctx, arg);
        if sc.Err? {
          return Some(sc.error);
        }
        var (x, y, direction) := sc.value;
        var amount := if direction == "up" then config.scrollAmount else -config.scrollAmount;
        events := events + [MoveTo(x, y), WheelScroll(amount)];
      }
      err := None;
    }

    /** The branches that cannot fail. */
    method ExecutePlain(kind: ActionType, arg: string)
      requires Valid() && caps.mode == config.capslockMode
      requires !(PyautoguiConverter.IsClick(kind) || kind == Drag || kind == Scroll)
      modifies this`events, caps
      ensures var s := PlainStep(Ctx(), old(caps.capsEnabled), kind, arg);
        events == old(events) + s.events && caps.capsEnabled == s.capsOn
    {
      if kind == Hotkey {
        var keys := parseHotkey(arg);
        if keys == ["capslock"] {
          if caps.ShouldUseSystemCapslock() {
            events := events + [HotkeyPress(["capslock"], config.hotkeyInterval)];
          } else {
            caps.Toggle();
          }
        } else {
          events := events + [HotkeyPress(keys, config.hotkeyInterval)];
        }
      } else if kind == Type {
        var text := StripChars(arg, {'"', '\''});
        text := caps.TransformText(text);
        if platform == Darwin || platform == Win32 {
          events := events + [TypewriteExact(text)];
        } else {
          events := events + [Typewrite(text)];
        }
      } else if IsTerminal(kind) {
        Reset();
      } else if kind == Wait {
        events := events + [Sleep(config.waitDuration)];
      }
    }

    /** `_execute_action`: the action executed `count` times, stopping at the first error. */
    method ExecuteAction(a: Action) returns (err: Option<Error>)
      requires Valid() && caps.mode == config.capslockMode
      modifies this`events, caps
      ensures Run(events, caps.capsEnabled, err) == Repeated(exec(scaler), old(Current()), a, PyautoguiConverter.Times(a))
    {
      ghost var exec := exec(scaler);
      ghost var r0 := Current();
      var n := PyautoguiConverter.Times(a);
      for i := 0 to n
        invariant Repeated(exec, r0, a, i) == Run(events, caps.capsEnabled, None)
      {
        err := ExecuteSingleAction(a);
        if err.Some? {
          RepeatedStopped(exec, r0, a, i + 1, n);
          return;
        }
      }
      err := None;
    }

    /** `__call__`: the actions in order; the first error is raised and ends the batch. */
    method Call(actions: seq<Action>) returns (err: Option<Error>)
      requires Valid() && caps.mode == config.capslockMode
      modifies this`events, caps
      ensures Run(events, caps.capsEnabled, err) == Batch(Ctx(), old(Current()), actions)
    {
      ghost var exec := exec(scaler);
      ghost var r0 := Current();
      for i := 0 to |actions|
        invariant Through(exec, r0, actions[..i]) == Run(events, caps.capsEnabled, None)
      {
        ThroughStep(exec, r0, actions, i);
        err := ExecuteAction(actions[i]);
        if err.Some? {
          ThroughStops(exec, r0, actions[..i + 1], actions[i + 1..]);
          assert actions[..i + 1] + actions[i + 1..] == actions;
          assert Wire(scaler);
          return;
        }
      }
      assert actions[..|actions|] == actions;
      assert Wire(scaler);
      if Value(config.postBatchDelay) > 0.0 {
        events := events + [Sleep(config.postBatchDelay)];
      }
      err := None;
    }

    /** `reset`: caps lock off; nothing else changes. */
    method Reset()
      modifies caps
      ensures !caps.capsEnabled
    {
      caps.Reset();
    }

    /** `set_target_screen`: the stored size and origin, and the scaler's, become the screen's. */
    method SetTargetScreen(screen: Screen)
      requires Valid() && screen.width >= 3 && screen.height >= 3
      modifies this
      ensures Valid()
      ensures screenWidth == screen.width && screenHeight == screen.height
      ensures originX == screen.x && originY == screen.y
      ensures scaler == old(scaler).WithTargetSize(screen.width, screen.height).WithOrigin(screen.x, screen.y)
      ensures events == old(events)
    {
      screenWidth, screenHeight := screen.width, screen.height;
      originX, originY := screen.x, screen.y;
      scaler := scaler.WithTargetSize(screen.width, screen.height);
      scaler := scaler.WithOrigin(screen.x, screen.y);
      forall sc: Scaler | sc.Valid()
        ensures exec(sc) == Executor(Context(config, platform, parseHotkey, sc))
      {
        assert Wire(sc);
      }
    }
  }
}
