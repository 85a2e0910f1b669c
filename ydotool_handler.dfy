/**
 * `YdotoolActionHandler`: runs `Action`s on a Wayland desktop through the
 * `Ydotool` wrapper. The handler's own state is the target screen and the
 * caps-lock manager; what it does to the desktop is the wrapper's trace of
 * command lines.
 */
module YdotoolHandler {
  import opened Wrappers
  import opened Text
  import opened ActionModel
  import opened CapsLock
  import opened Keycodes
  import opened Wayland
  import PyautoguiHandler

  /** `YdotoolConfig`. */
  datatype YdotoolConfig = YdotoolConfig(
    scrollAmount: int, waitDuration: real, actionPause: real, capslockMode: CapsMode, socketAddress: string)

  /** The defaults: scroll by 20, wait a second, pause half a second, session caps lock, the default socket. */
  const DefaultConfig := YdotoolConfig(20, 1.0, 0.5, Session, "")

  /**
   * What an execution reads: the scroll amount, the caps-lock mode, and the
   * target screen's size and top-left corner.
   */
  datatype Context = Context(scrollAmount: int, mode: CapsMode, width: int, height: int, originX: int, originY: int)

  /** One execution of an action: the command lines it ran and the caps flag after it. */
  datatype Step = Step(commands: seq<seq<string>>, capsOn: bool)

  // ---------------------------------------------------------------------
  // coordinates
  // ---------------------------------------------------------------------

  /** `int(n / 1000)`: the quotient truncated toward zero, also for negative `n`. */
  function Trunc(n: int): (q: int)
    ensures n >= 0 ==> 0 <= n - 1000 * q < 1000
    ensures n <= 0 ==> 0 <= 1000 * q - n < 1000
  {
    if n >= 0 then n / 1000 else -((-n) / 1000)
  }

  /**
   * One axis of `_denormalize_coords`: the 0-1000 value scaled to the
   * screen size, moved off the first and the last pixel (the first test
   * wins), then shifted by the screen's origin.
   */
  function Axis(v: nat, size: int, origin: int): (s: int)
    ensures size >= 2 ==> origin + 1 <= s <= origin + size - 1
    ensures 1 <= Trunc(v * size) <= size - 1 ==> s == origin + Trunc(v * size)
  {
    var raw := Trunc(v * size);
    (if raw < 1 then 1 else if raw > size - 1 then size - 1 else raw) + origin
  }

  /** `_denormalize_coords` */
  function Point(ctx: Context, x: nat, y: nat): (int, int)
  {
    (Axis(x, ctx.width, ctx.originX), Axis(y, ctx.height, ctx.originY))
  }

  /** `_parse_coords` */
  function PointOf(ctx: Context, arg: string): (r: Result<(int, int)>)
    ensures r.Ok? <==> ParseCoords(arg).Some?
    ensures r.Ok? ==> r.value == Point(ctx, ParseCoords(arg).value.0, ParseCoords(arg).value.1)
    ensures r.Err? ==> r.error == ValueError("Invalid coordinates format: " + arg)
  {
    match ParseCoords(arg)
    case None => Err(ValueError("Invalid coordinates format: " + arg))
    case Some((x, y)) => Ok(Point(ctx, x, y))
  }

  /** `_parse_drag_coords` */
  function DragOf(ctx: Context, arg: string): (r: Result<((int, int), (int, int))>)
    ensures r.Ok? <==> ParseDragCoords(arg).Some?
    ensures r.Err? ==> r.error == ValueError("Invalid drag coordinates format: " + arg)
  {
    match ParseDragCoords(arg)
    case None => Err(ValueError("Invalid drag coordinates format: " + arg))
    case Some((x1, y1, x2, y2)) => Ok((Point(ctx, x1, y1), Point(ctx, x2, y2)))
  }

  /** `_parse_scroll` */
  function ScrollOf(ctx: Context, arg: string): (r: Result<(int, int, string)>)
    ensures r.Ok? <==> ParseScroll(arg).Some?
    ensures r.Err? ==> r.error == ValueError("Invalid scroll format: " + arg)
  {
    match ParseScroll(arg)
    case None => Err(ValueError("Invalid scroll format: " + arg))
    case Some((x, y, direction)) =>
      var p := Point(ctx, x, y);
      Ok((p.0, p.1, direction))
  }

  // ---------------------------------------------------------------------
  // keys
  // ---------------------------------------------------------------------

  /** `strip().lower()`: the form every key name is compared in. */
  function Canonical(key: string): string
  {
    Lower(Strip(key))
  }

  /** `_normalize_key`: the spellings of caps lock, page up and page down become the one the key table knows. */
  function NormalizeKey(key: string): (k: string)
    ensures Canonical(k) == k
  {
    var k := Canonical(key);
    CanonicalStable(key);
    if k == "caps_lock" || k == "caps" || k == "capslock" then CapsLockName()
    else if k == "page_up" || k == "pageup" then PageName("pgup")
    else if k == "page_down" || k == "pagedown" then PageName("pgdn")
    else k
  }

  /** "capslock", which is its own canonical form. */
  function CapsLockName(): (k: string)
    ensures k == "capslock" && Canonical(k) == k
  {
    LowerWordNormal("capslock");
    "capslock"
  }

  /** "pgup" or "pgdn", each its own canonical form. */
  function PageName(k: string): (r: string)
    requires k == "pgup" || k == "pgdn"
    ensures r == k && Canonical(r) == r
  {
    LowerWordNormal(k);
    k
  }

  /** A canonical name is its own canonical form. */
  lemma CanonicalStable(key: string)
    ensures Canonical(Canonical(key)) == Canonical(key)
  {
    var s := Strip(key);
    var k := Lower(s);
    assert k == [] || (!IsSpace(k[0]) && !IsSpace(k[|k| - 1])) by {
      if k != [] {
        assert k[0] == LowerChar(s[0]) && k[|k| - 1] == LowerChar(s[|s| - 1]);
      }
    }
    StripNoop(k);
    assert Lower(k) == k;
  }

  /** Normalizing twice is normalizing once. */
  lemma NormalizeKeyIdempotent(key: string)
    ensures NormalizeKey(NormalizeKey(key)) == NormalizeKey(key)
  {
    var k := NormalizeKey(key);
    assert Canonical(k) == k;
    if k == "capslock" {
    } else if k == "pgup" {
      assert k != "caps_lock" && k != "caps" && k != "capslock" by { assert k[0] == 'p'; }
      assert k != "page_up" && k != "pageup" && k != "page_down" && k != "pagedown" by { assert |k| == 4; }
    } else if k == "pgdn" {
      assert k != "caps_lock" && k != "caps" && k != "capslock" by { assert k[0] == 'p'; }
      assert k != "page_up" && k != "pageup" && k != "page_down" && k != "pagedown" by { assert |k| == 4; }
    } else {
      assert k == Canonical(key);
    }
  }

  /** The three names normalization produces are all in the key table. */
  lemma NormalizedNamesHaveCodes()
    ensures Keycode("capslock") == Some(58) && Keycode("pgup") == Some(104) && Keycode("pgdn") == Some(109)
  {
  }

  /** Every spelling of caps lock, in any case and with any surrounding space, reaches the caps-lock code. */
  lemma CapsLockVariations(key: string)
    requires Canonical(key) == "caps_lock" || Canonical(key) == "caps" || Canonical(key) == "capslock"
    ensures Keycode(NormalizeKey(key)) == Some(58)
  {
    NormalizedNamesHaveCodes();
  }

  /** Every spelling of page up and page down reaches the code of that key. */
  lemma PageVariations(key: string)
    requires Canonical(key) == "page_up" || Canonical(key) == "pageup" || Canonical(key) == "page_down" || Canonical(key) == "pagedown"
    ensures Keycode(NormalizeKey(key)) == if Canonical(key) in {"page_up", "pageup"} then Some(104) else Some(109)
  {
    var k := Canonical(key);
    NormalizedNamesHaveCodes();
    assert k != "caps_lock" && k != "caps" && k != "capslock" by { assert k[0] == 'p' && k[1] == 'a'; }
  }

  /** The spelling `caps_lock` has no code of its own: without normalization it would be dropped from a hotkey. */
  lemma CapsLockSpellingNeedsNormalizing()
    ensures Keycode("caps_lock").None? && Keycode(NormalizeKey("caps_lock")) == Some(58)
  {
    LowerWordNormal("caps_lock");
  }

  /** `_parse_hotkey`: parentheses stripped, split on `+`, every key normalized. */
  function ParseHotkey(arg: string): (keys: seq<string>)
    ensures |keys| == |Split(StripChars(arg, {'(', ')'}), '+')| >= 1
  {
    var parts := Split(StripChars(arg, {'(', ')'}), '+');
    seq(|parts|, i requires 0 <= i < |parts| => NormalizeKey(parts[i]))
  }

  /** Every key of a parsed hotkey is already normalized: parsing its own text again changes nothing. */
  lemma ParsedKeysNormal(arg: string)
    ensures forall i :: 0 <= i < |ParseHotkey(arg)| ==> NormalizeKey(ParseHotkey(arg)[i]) == ParseHotkey(arg)[i]
  {
    var parts := Split(StripChars(arg, {'(', ')'}), '+');
    forall i | 0 <= i < |parts| ensures NormalizeKey(ParseHotkey(arg)[i]) == ParseHotkey(arg)[i] {
      NormalizeKeyIdempotent(parts[i]);
    }
  }

  // ---------------------------------------------------------------------
  // one execution of one action
  // ---------------------------------------------------------------------

  predicate IsPointer(kind: ActionType)
  {
    kind == Drag || kind == Scroll || kind == RightSingle || kind == LeftDouble || kind == LeftTriple || kind == Click
  }

  /** How many clicks a click action makes per repetition. */
  function Clicks(kind: ActionType, count: int): (n: int)
    ensures kind == LeftDouble ==> n == 2 * count
    ensures kind == LeftTriple ==> n == 3 * count
    ensures kind != LeftDouble && kind != LeftTriple ==> n == count
  {
    if kind == LeftDouble then 2 * count else if kind == LeftTriple then 3 * count else count
  }

  /** The actions that need a point: a malformed argument is a ValueError and runs nothing. */
  function PointerStep(ctx: Context, capsOn: bool, kind: ActionType, arg: string, count: int): (r: Result<Step>)
    requires IsPointer(kind)
    ensures r.Ok? ==> r.value.capsOn == capsOn
  {
    if kind == Drag then
      match DragOf(ctx, arg)
      case Err(e) => Err(e)
      case Ok((p, q)) => Ok(Step(Repeat(DragCommands(p.0, p.1, q.0, q.1), if count > 0 then count else 0), capsOn))
    else if kind == Scroll then
      match ScrollOf(ctx, arg)
      case Err(e) => Err(e)
      case Ok((_, _, direction)) =>
        Ok(Step([ScrollCommand(if direction == "up" then ctx.scrollAmount else -ctx.scrollAmount)], capsOn))
    else
      match PointOf(ctx, arg)
      case Err(e) => Err(e)
      case Ok(p) => Ok(Step(ClickCommands(p.0, p.1, Clicks(kind, count), kind == RightSingle), capsOn))
  }

  /**
   * The hotkey branch: a lone caps lock is pressed once in system mode and
   * only flips the flag in session mode; any other key list is pressed
   * `count` times.
   */
  function HotkeyStep(ctx: Context, capsOn: bool, keys: seq<string>, count: int): (s: Step)
    ensures keys != ["capslock"] ==> s == Step([HotkeyCommand(keys, count)], capsOn)
  {
    if |keys| == 1 && keys[0] == "capslock" then
      if ctx.mode == System then Step([HotkeyCommand(["capslock"], 1)], capsOn) else Step([], !capsOn)
    else Step([HotkeyCommand(keys, count)], capsOn)
  }

  /** The text a TYPE action types: quotes stripped, then upper-cased while session caps lock is on. */
  function TypedText(ctx: Context, capsOn: bool, arg: string): (t: string)
    ensures |t| <= |arg|
  {
    Transform(ctx.mode, capsOn, StripChars(arg, {'"', '\''}))
  }

  /** The actions that cannot fail: keys, text, FINISH (caps lock off), and those that run nothing. */
  function PlainStep(ctx: Context, capsOn: bool, kind: ActionType, arg: string, count: int): (s: Step)
    requires !IsPointer(kind)
    ensures kind != Hotkey && kind != Type ==> s.commands == []
    ensures kind != Hotkey && kind != Finish ==> s.capsOn == capsOn
  {
    if kind == Hotkey then HotkeyStep(ctx, capsOn, ParseHotkey(arg), count)
    else if kind == Type then Step([Command(["type", TypedText(ctx, capsOn, arg)], count)], capsOn)
    else if kind == Finish then Step([], false)
    else Step([], capsOn)
  }

  /** `_execute_action`: the argument stripped, the count `count or 1`, then the branch of the action's kind. */
  function Single(ctx: Context, capsOn: bool, a: Action): (r: Result<Step>)
    ensures !IsPointer(a.kind) ==> r.Ok?
  {
    var arg := Strip(a.argument);
    if IsPointer(a.kind) then PointerStep(ctx, capsOn, a.kind, arg, Repeats(a))
    else Ok(PlainStep(ctx, capsOn, a.kind, arg, Repeats(a)))
  }

  // ---------------------------------------------------------------------
  // runs of actions
  // ---------------------------------------------------------------------

  /** The commands so far, the caps flag, and the error that stopped the run, if any. */
  datatype Run = Run(commands: seq<seq<string>>, capsOn: bool, error: Option<Error>)

  /** One execution of an action from a caps flag, as a function value. */
  type Execution = (bool, Action) -> Result<Step>

  /** `_execute_action` of a handler in context `ctx`. */
  function Executor(ctx: Context): Execution
  {
    (capsOn: bool, a: Action) => Single(ctx, capsOn, a)
  }

  /** The executor of a context executes an action as `Single` does. */
  lemma Executes(ctx: Context, capsOn: bool, a: Action)
    ensures Executor(ctx)(capsOn, a) == Single(ctx, capsOn, a)
  {
  }

  /** A marker term: it brings a handler's definition of its executor into a proof where it is mentioned. */
  ghost predicate Wire(ctx: Context) { true }

  /** One more action, unless an error already stopped the run; an action that raises runs nothing. */
  function Again(exec: Execution, r: Run, a: Action): Run
  {
    if r.error.Some? then r
    else
      match exec(r.capsOn, a)
      case Err(e) => Run(r.commands, r.capsOn, Some(e))
      case Ok(s) => Run(r.commands + s.commands, s.capsOn, None)
  }

  /** `__call__`: the actions in order; the first error is raised and ends the run. */
  function Through(exec: Execution, r: Run, actions: seq<Action>): Run
  {
    if actions == [] then r
    else Again(exec, Through(exec, r, actions[..|actions| - 1]), actions[|actions| - 1])
  }

  // ---------------------------------------------------------------------
  // properties
  // ---------------------------------------------------------------------

  /** The screen's corners are moved one pixel inwards. */
  lemma Corners(size: int, origin: int)
    requires size >= 2
    ensures Axis(0, size, origin) == origin + 1
    ensures Axis(1000, size, origin) == origin + size - 1
  {
    assert Trunc(1000 * size) == size;
  }

  /** On a screen at least two pixels wide, a larger value never lands further left or up. */
  lemma AxisMonotone(v1: nat, v2: nat, size: int, origin: int)
    requires v1 <= v2 && size >= 2
    ensures Axis(v1, size, origin) <= Axis(v2, size, origin)
  {
    assert v1 * size <= v2 * size by {
      assert (v2 - v1) * size >= 0;
    }
  }

  /** A scroll ignores the action's count: it moves the wheel once. */
  lemma ScrollIgnoresCount(ctx: Context, capsOn: bool, a: Action, count: Option<int>)
    requires a.kind == Scroll
    ensures Single(ctx, capsOn, a) == Single(ctx, capsOn, a.(count := count))
  {
  }

  /** A double or triple click repeats its click two or three times `count`, and the repeat flag carries that number. */
  lemma MultiClickRepeats(ctx: Context, capsOn: bool, a: Action)
    requires a.kind == LeftDouble || a.kind == LeftTriple
    requires ValidAction(a) && ParseCoords(Strip(a.argument)).Some?
    ensures Single(ctx, capsOn, a).Ok?
    ensures var cmds := Single(ctx, capsOn, a).value.commands;
      |cmds| == 2 && |cmds[1]| == 5 && cmds[1][..3] == ["ydotool", "click", "0xC0"] && cmds[1][3] == "--repeat"
      && ParseInt(cmds[1][4]) == Some((if a.kind == LeftDouble then 2 else 3) * Repeats(a))
  {
    var n := Clicks(a.kind, Repeats(a));
    RepeatFlag(["click", "0xC0"], n);
  }

  /** A single left click with the default count runs no repeat flag. */
  lemma SingleClickOnce(ctx: Context, capsOn: bool, a: Action)
    requires a.kind == Click && a.count == Some(1)
    requires ParseCoords(Strip(a.argument)).Some?
    ensures Single(ctx, capsOn, a).Ok?
    ensures Single(ctx, capsOn, a).value.commands[1] == ["ydotool", "click", "0xC0"]
  {
  }

  /** In session mode, a lone caps lock only flips the flag. */
  lemma SessionCapsLockFlips(ctx: Context, capsOn: bool, a: Action)
    requires ctx.mode == Session && a.kind == Hotkey && ParseHotkey(Strip(a.argument)) == ["capslock"]
    ensures Single(ctx, capsOn, a) == Ok(Step([], !capsOn))
  {
    HotkeySingle(ctx, capsOn, a);
    LoneCapsLockStep(ctx, capsOn, ParseHotkey(Strip(a.argument)), Repeats(a));
  }

  /** A hotkey action runs the hotkey branch on its parsed keys. */
  lemma HotkeySingle(ctx: Context, capsOn: bool, a: Action)
    requires a.kind == Hotkey
    ensures Single(ctx, capsOn, a) == Ok(HotkeyStep(ctx, capsOn, ParseHotkey(Strip(a.argument)), Repeats(a)))
  {
    var arg, n := Strip(a.argument), Repeats(a);
    assert !IsPointer(a.kind);
    PlainSingle(ctx, capsOn, a);
    HotkeyPlain(ctx, capsOn, a.kind, arg, n);
  }

  /** The plain branch of a hotkey action. */
  lemma HotkeyPlain(ctx: Context, capsOn: bool, kind: ActionType, arg: string, count: int)
    requires kind == Hotkey
    ensures PlainStep(ctx, capsOn, kind, arg, count) == HotkeyStep(ctx, capsOn, ParseHotkey(arg), count)
  {
  }

  /** The hotkey branch on a lone caps lock: pressed once in system mode, a flip of the flag in session mode. */
  lemma LoneCapsLockStep(ctx: Context, capsOn: bool, keys: seq<string>, count: int)
    requires keys == ["capslock"]
    ensures ctx.mode == System ==> HotkeyStep(ctx, capsOn, keys, count) == Step([HotkeyCommand(["capslock"], 1)], capsOn)
    ensures ctx.mode == Session ==> HotkeyStep(ctx, capsOn, keys, count) == Step([], !capsOn)
  {
  }

  /** In session mode, caps lock twice restores the flag and runs nothing. */
  lemma CapsLockTwiceRestores(ctx: Context, capsOn: bool, a: Action)
    requires ctx.mode == Session && a.kind == Hotkey && ParseHotkey(Strip(a.argument)) == ["capslock"]
    ensures var exec := Executor(ctx);
      Again(exec, Again(exec, Run([], capsOn, None), a), a) == Run([], capsOn, None)
  {
    ExecutorFlips(ctx, capsOn, a);
    FlipTwice(Executor(ctx), capsOn, a);
  }

  /** The executor of a session-mode handler flips the flag on a lone caps lock, from either flag. */
  lemma ExecutorFlips(ctx: Context, capsOn: bool, a: Action)
    requires ctx.mode == Session && a.kind == Hotkey && ParseHotkey(Strip(a.argument)) == ["capslock"]
    ensures Executor(ctx)(capsOn, a) == Ok(Step([], !capsOn)) && Executor(ctx)(!capsOn, a) == Ok(Step([], capsOn))
  {
    SessionCapsLockFlips(ctx, capsOn, a);
    SessionCapsLockFlips(ctx, !capsOn, a);
    Executes(ctx, capsOn, a);
    Executes(ctx, !capsOn, a);
  }

  /** Two silent flips of the flag by the same action leave the run as it was. */
  lemma FlipTwice(exec: Execution, capsOn: bool, a: Action)
    requires exec(capsOn, a) == Ok(Step([], !capsOn)) && exec(!capsOn, a) == Ok(Step([], capsOn))
    ensures Again(exec, Again(exec, Run([], capsOn, None), a), a) == Run([], capsOn, None)
  {
    assert Again(exec, Run([], capsOn, None), a) == Run([], !capsOn, None);
  }

  /** Pressing caps lock alone: its code pressed, then released. */
  lemma CapsLockCommand()
    ensures HotkeyCommand(["capslock"], 1) == ["ydotool", "key", Press(58), Release(58)]
  {
    assert Codes(["capslock"]) == [58] by {
      assert ["capslock"][..0] == [];
      NormalizedNamesHaveCodes();
    }
  }

  /** In system mode, caps lock is pressed and released once whatever the count, and the flag stays. */
  lemma SystemCapsLockPresses(ctx: Context, capsOn: bool, a: Action)
    requires ctx.mode == System && a.kind == Hotkey && ParseHotkey(Strip(a.argument)) == ["capslock"]
    ensures Single(ctx, capsOn, a) == Ok(Step([["ydotool", "key", Press(58), Release(58)]], capsOn))
  {
    HotkeySingle(ctx, capsOn, a);
    LoneCapsLockStep(ctx, capsOn, ParseHotkey(Strip(a.argument)), Repeats(a));
    CapsLockCommand();
  }

  /** While session caps lock is on, the text is typed upper-cased. */
  lemma TypeUnderCaps(ctx: Context, a: Action)
    requires ctx.mode == Session && a.kind == Type
    ensures Single(ctx, true, a).Ok?
    ensures Single(ctx, true, a).value.commands[0][2] == Upper(StripChars(Strip(a.argument), {'"', '\''}))
  {
    var arg := Strip(a.argument);
    TypeSingle(ctx, true, a);
    var t := TypedText(ctx, true, arg);
    assert t == Upper(StripChars(arg, {'"', '\''}));
    TypedWord(t, Repeats(a));
  }

  /** The typed text is the third word of the `type` command line. */
  lemma TypedWord(t: string, count: int)
    ensures |Command(["type", t], count)| >= 3 && Command(["type", t], count)[2] == t
  {
    assert Command(["type", t], count)[..3] == ["ydotool", "type", t];
  }

  /** A TYPE action types its stripped argument, the flag unchanged. */
  lemma TypeSingle(ctx: Context, capsOn: bool, a: Action)
    requires a.kind == Type
    ensures Single(ctx, capsOn, a) == Ok(Step([Command(["type", TypedText(ctx, capsOn, Strip(a.argument))], Repeats(a))], capsOn))
  {
    PlainSingle(ctx, capsOn, a);
    TypeStep(ctx, capsOn, a.kind, Strip(a.argument), Repeats(a));
  }

  /** An action that needs no point runs the plain branch. */
  lemma PlainSingle(ctx: Context, capsOn: bool, a: Action)
    requires !IsPointer(a.kind)
    ensures Single(ctx, capsOn, a) == Ok(PlainStep(ctx, capsOn, a.kind, Strip(a.argument), Repeats(a)))
  {
  }

  /** The plain branch of a TYPE action. */
  lemma TypeStep(ctx: Context, capsOn: bool, kind: ActionType, arg: string, count: int)
    requires kind == Type
    ensures PlainStep(ctx, capsOn, kind, arg, count) == Step([Command(["type", TypedText(ctx, capsOn, arg)], count)], capsOn)
  {
  }

  /** FINISH turns caps lock off; FAIL is an unknown action here and leaves it as it was. */
  lemma FinishResetsFailKeeps(ctx: Context, capsOn: bool, finish: Action, fail: Action)
    requires finish.kind == Finish && fail.kind == Fail
    ensures Single(ctx, capsOn, finish) == Ok(Step([], false))
    ensures Single(ctx, capsOn, fail) == Ok(Step([], capsOn))
  {
  }

  /** A click on a malformed point raises and runs nothing. */
  lemma InvalidPointRaises(ctx: Context, capsOn: bool, a: Action)
    requires a.kind == Click || a.kind == RightSingle || a.kind == LeftDouble || a.kind == LeftTriple
    requires ParseCoords(Strip(a.argument)).None?
    ensures Again(Executor(ctx), Run([], capsOn, None), a) == Run([], capsOn, Some(ValueError("Invalid coordinates format: " + Strip(a.argument))))
  {
  }

  /** Once an action has raised, the actions after it run nothing. */
  lemma {:induction false} ErrorStops(exec: Execution, start: Run, actions: seq<Action>, rest: seq<Action>)
    requires Through(exec, start, actions).error.Some?
    ensures Through(exec, start, actions + rest) == Through(exec, start, actions)
    decreases |rest|
  {
    if rest == [] {
      assert actions + rest == actions;
    } else {
      var front := rest[..|rest| - 1];
      ErrorStops(exec, start, actions, front);
      assert (actions + rest)[..|actions + rest| - 1] == actions + front;
    }
  }

  /** The run after one more action is the run so far followed by that action. */
  lemma ThroughStep(exec: Execution, r: Run, actions: seq<Action>, k: nat)
    requires k < |actions|
    ensures Through(exec, r, actions[..k + 1]) == Again(exec, Through(exec, r, actions[..k]), actions[k])
  {
    assert actions[..k + 1][..k] == actions[..k];
  }

  // ---------------------------------------------------------------------
  // the handler
  // ---------------------------------------------------------------------

  class YdotoolActionHandler {
    const config: YdotoolConfig
    const tool: Ydotool
    const caps: CapsLockManager
    var screenWidth: int
    var screenHeight: int
    var originX: int
    var originY: int
    /** `_execute_action` for each context the handler may be in. */
    ghost const exec: Context -> Execution

    ghost predicate Valid()
    {
      forall ctx: Context {:trigger Wire(ctx)} :: exec(ctx) == Executor(ctx)
    }

    function Ctx(): Context
      reads this
    {
      Context(config.scrollAmount, caps.mode, screenWidth, screenHeight, originX, originY)
    }

    /** The commands and the flag as a run that has not failed. */
    function Current(): Run
      reads tool, caps
    {
      Run(tool.commands, caps.capsEnabled, None)
    }

    /**
     * A handler for a screen of `width` by `height` pixels (the size
     * `GetScreenSize` finds), with its origin at the top-left corner, the
     * configured pause, and caps lock off.
     */
    constructor (config: YdotoolConfig, width: int, height: int)
      ensures Valid()
      ensures this.config == config && screenWidth == width && screenHeight == height && originX == 0 && originY == 0
      ensures fresh(tool) && tool.socketAddress == config.socketAddress && tool.actionPause == config.actionPause && tool.commands == []
      ensures fresh(caps) && caps.mode == config.capslockMode && !caps.capsEnabled
    {
      this.config := config;
      var t := new Ydotool(config.socketAddress);
      t.actionPause := config.actionPause;
      tool := t;
      caps := new CapsLockManager(config.capslockMode);
      screenWidth, screenHeight := width, height;
      originX, originY := 0, 0;
      exec := (ctx: Context) => Executor(ctx);
    }

    /** `_execute_action`: never reports FINISH; runs the action's commands or raises before running any. */
    method ExecuteAction(a: Action) returns (finished: bool, err: Option<Error>)
      requires Valid()
      modifies tool`commands, caps
      ensures !finished
      ensures Run(tool.commands, caps.capsEnabled, err) == Again(exec(Ctx()), old(Current()), a)
    {
      var ctx := Ctx();
      ghost var capsOn := caps.capsEnabled;
      var arg := Strip(a.argument);
      var count := Repeats(a);
      if IsPointer(a.kind) {
        assert exec(ctx)(capsOn, a) == PointerStep(ctx, capsOn, a.kind, arg, count) by {
          assert Wire(ctx);
          Executes(ctx, capsOn, a);
        }
        err := ExecutePointer(ctx, a.kind, arg, count);
      } else {
        assert exec(ctx)(capsOn, a) == Ok(PlainStep(ctx, capsOn, a.kind, arg, count)) by {
          assert Wire(ctx);
          Executes(ctx, capsOn, a);
        }
        ExecutePlain(ctx, a.kind, arg, count);
        err := None;
      }
      finished := false;
    }

    /** The branches that read a point; a malformed one is raised before any command runs. */
    method ExecutePointer(ctx: Context, kind: ActionType, arg: string, count: int) returns (err: Option<Error>)
      requires IsPointer(kind) && ctx.scrollAmount == config.scrollAmount
      modifies tool`commands
      ensures var r := PointerStep(ctx, caps.capsEnabled, kind, arg, count);
        && (r.Ok? ==> err.None? && tool.commands == old(tool.commands) + r.value.commands)
        && (r.Err? ==> err == Some(r.error) && tool.commands == old(tool.commands))
    {
      if kind == Drag {
        var d := DragOf(ctx, arg);
        if d.Err? {
          return Some(d.error);
        }
        var (p, q) := d.value;
        tool.Drag(p.0, p.1, q.0, q.1, count);
      } else if kind == Scroll {
        var sc := ScrollOf(ctx, arg);
        if sc.Err? {
          return Some(sc.error);
        }
        var (_, _, direction) := sc.value;
        var amount := if direction == "up" then config.scrollAmount else -config.scrollAmount;
        tool.Scroll(amount);
      } else {
        var p := PointOf(ctx, arg);
        if p.Err? {
          return Some(p.error);
        }
        var (x, y) := p.value;
        if kind == RightSingle {
          tool.Click(x, y, count, true);
        } else if kind == LeftDouble {
          tool.Click(x, y, 2 * count, false);
        } else if kind == LeftTriple {
          tool.Click(x, y, 3 * count, false);
        } else {
          tool.Click(x, y, count, false);
        }
      }
      return None;
    }

    /** The branches that cannot raise: keys, text, FINISH, and the kinds that run nothing. */
    method ExecutePlain(ctx: Context, kind: ActionType, arg: string, count: int)
      requires !IsPointer(kind) && ctx.mode == caps.mode
      modifies tool`commands, caps
      ensures var s := PlainStep(ctx, old(caps.capsEnabled), kind, arg, count);
        tool.commands == old(tool.commands) + s.commands && caps.capsEnabled == s.capsOn
    {
      if kind == Hotkey {
        var keys := ParseHotkey(arg);
        if |keys| == 1 && keys[0] == "capslock" {
          if caps.ShouldUseSystemCapslock() {
            tool.Hotkey(["capslock"], 1);
          } else {
            caps.Toggle();
          }
        } else {
          tool.Hotkey(keys, count);
        }
      } else if kind == Type {
        var text := StripChars(arg, {'"', '\''});
        text := caps.TransformText(text);
        tool.RunYdotool(["type", text], count);
      } else if kind == Finish {
        Reset();
      }
    }

    /** `__call__`: the actions in order, stopping at the first error, which it returns. */
    method Call(actions: seq<Action>) returns (err: Option<Error>)
      requires Valid()
      modifies tool`commands, caps
      ensures Run(tool.commands, caps.capsEnabled, err) == Through(exec(Ctx()), old(Current()), actions)
    {
      ghost var exec := exec(Ctx());
      ghost var r0 := Current();
      for i := 0 to |actions|
        invariant Through(exec, r0, actions[..i]) == Current()
      {
        ThroughStep(exec, r0, actions, i);
        var _, e := ExecuteAction(actions[i]);
        if e.Some? {
          ErrorStops(exec, r0, actions[..i + 1], actions[i + 1..]);
          assert actions[..i + 1] + actions[i + 1..] == actions;
          return e;
        }
      }
      assert actions[..|actions|] == actions;
      return None;
    }

    /** `reset`: caps lock off; nothing is run. */
    method Reset()
      modifies caps
      ensures !caps.capsEnabled
    {
      caps.Reset();
    }

    /** `set_target_screen`: later points land on `screen`. */
    method SetTargetScreen(screen: PyautoguiHandler.Screen)
      modifies this
      ensures screenWidth == screen.width && screenHeight == screen.height
      ensures originX == screen.x && originY == screen.y
    {
      screenWidth, screenHeight := screen.width, screen.height;
      originX, originY := screen.x, screen.y;
    }
  }
}
