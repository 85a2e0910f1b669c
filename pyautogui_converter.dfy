/**
 * `PyautoguiActionConvertor` (also exported as `OagiActionConverter`):
 * actions in the 0-1000 model space become pyautogui command strings for a
 * remote sandbox. Each action yields its commands `count` times, tagged so
 * that only the action's very last command is marked as last; one batch
 * may hold at most one FINISH or FAIL, and a batch that yields no command
 * at all is an error.
 */
module PyautoguiConverter {
  import opened Wrappers
  import opened Text
  import opened Decimals
  import Json
  import opened ActionModel
  import opened Scaling
  import opened CapsLock

  const ModelCoordWidth := 1000
  const ModelCoordHeight := 1000

  /** The part of `PyautoguiConfig` the convertor reads. */
  datatype PyautoguiConfig = PyautoguiConfig(
    sandboxWidth: int, sandboxHeight: int,
    dragDuration: Decimal, scrollAmount: int, waitDuration: Decimal,
    hotkeyInterval: Decimal, capslockMode: CapsMode)

  predicate ValidConfig(c: PyautoguiConfig)
  {
    c.sandboxWidth >= 3 && c.sandboxHeight >= 3
  }

  /** The convertor's default: a 1920x1080 sandbox and a scroll step of 2. */
  function DefaultConfig(): (c: PyautoguiConfig)
    ensures ValidConfig(c)
  {
    PyautoguiConfig(1920, 1080, Decimal(5, 1), 2, Decimal(1, 0), Decimal(1, 1), Session)
  }

  // ---------------------------------------------------------------------
  // coordinates
  // ---------------------------------------------------------------------

  predicate InModelRange(v: Decimal)
  {
    0.0 <= Value(v) <= ModelCoordWidth as real
  }

  /** `p` is the pixel nearest to `v` on a `size`-pixel axis, or the last pixel beyond it. */
  predicate NearestPixel(v: real, size: int, p: int)
  {
    var e := v * size as real / 1000.0;
    && (e <= (size - 1) as real ==> e - 0.5 <= p as real <= e + 0.5)
    && (e >= (size - 1) as real ==> p == size - 1)
  }

  /**
   * `_denormalize_coords`: a point outside `[0, 1000]` on either axis is a
   * ValueError; otherwise each axis is rounded onto the sandbox and clamped
   * to its last pixel.
   */
  function DenormalizeCoords(config: PyautoguiConfig, x: Decimal, y: Decimal): (r: Result<(int, int)>)
    requires ValidConfig(config)
    ensures r.Ok? <==> InModelRange(x) && InModelRange(y)
    ensures r.Err? ==> r.error.ValueError?
    ensures r.Ok? ==> 0 <= r.value.0 < config.sandboxWidth && 0 <= r.value.1 < config.sandboxHeight
    ensures r.Ok? ==> NearestPixel(Value(x), config.sandboxWidth, r.value.0)
    ensures r.Ok? ==> NearestPixel(Value(y), config.sandboxHeight, r.value.1)
  {
    if !InModelRange(x) then
      Err(ValueError("x coordinate " + Decimals.Repr(x) + " out of valid range [0, 1000]. "
        + "Coordinates must be normalized between 0 and 1000."))
    else if !InModelRange(y) then
      Err(ValueError("y coordinate " + Decimals.Repr(y) + " out of valid range [0, 1000]. "
        + "Coordinates must be normalized between 0 and 1000."))
    else
      Ok((Pixel(Value(x), ModelCoordWidth, config.sandboxWidth), Pixel(Value(y), ModelCoordHeight, config.sandboxHeight)))
  }

  /** One axis of a model coordinate in `[0, source]` scaled to a sandbox of `size` pixels. */
  function Pixel(v: real, source: int, size: int): (p: int)
    requires source == 1000 && size >= 3 && 0.0 <= v <= source as real
    ensures 0 <= p < size && NearestPixel(v, size, p)
  {
    ScaleAxisNearest(v, source, size);
    ScaleAxis(v, source, size, false)
  }

  /** The sandbox points of the converter's tests: (500, 300) and the far corner (1000, 1000). */
  lemma DenormalizeTable()
    ensures DenormalizeCoords(DefaultConfig(), FromInt(500), FromInt(300)) == Ok((960, 324))
    ensures DenormalizeCoords(DefaultConfig(), FromInt(1000), FromInt(1000)) == Ok((1919, 1079))
    ensures DenormalizeCoords(DefaultConfig(), FromInt(-10), FromInt(500)).IsValueError()
    ensures DenormalizeCoords(DefaultConfig(), FromInt(500), FromInt(1050)).IsValueError()
  {
    AxisValue(500.0, 1920, 960);
    AxisValue(300.0, 1080, 324);
    AxisValue(1000.0, 1920, 1920);
    AxisValue(1000.0, 1080, 1080);
  }

  /** `float(text)`, whose failure is a ValueError. */
  function FloatOf(text: string): (r: Result<Decimal>)
    ensures r.Ok? <==> ParseFloat(text).Some?
    ensures r.Ok? ==> r.value == ParseFloat(text).value
  {
    match ParseFloat(text)
    case None => Err(ValueError("could not convert string to float: " + Json.Repr(text)))
    case Some(d) => Ok(d)
  }

  /** Two actions glued together with " and " / " then " are refused before any parsing. */
  predicate Combined(argument: string)
  {
    Contains(Lower(argument), " and ") || Contains(Lower(argument), " then ")
  }

  /** `argument.split(",") if argument else []` */
  function CommaFields(argument: string): (parts: seq<string>)
    ensures argument == [] ==> parts == []
    ensures argument != [] ==> Join(parts, ",") == argument
  {
    if argument == [] then [] else JoinSplit(argument, ','); Split(argument, ',')
  }

  /**
   * `_parse_click_coords`: the first two comma fields as floats, scaled.
   * Fields after the second are ignored.
   */
  function ParseClickCoords(config: PyautoguiConfig, argument: string): (r: Result<(int, int)>)
    requires ValidConfig(config)
    ensures r.Ok? ==> !Combined(argument) && |CommaFields(argument)| >= 2
    ensures r.Ok? ==> var parts := CommaFields(argument);
      && ParseFloat(parts[0]).Some? && ParseFloat(parts[1]).Some?
      && r == DenormalizeCoords(config, ParseFloat(parts[0]).value, ParseFloat(parts[1]).value)
    ensures r.Err? ==> r.error.ValueError?
  {
    var parts := CommaFields(argument);
    if Combined(argument) then
      Err(ValueError("Invalid click format: '" + argument + "'. Cannot combine multiple actions with 'and' or 'then'. "
        + "Each action must be separate in the action list."))
    else if |parts| < 2 then
      Err(ValueError("Invalid click coordinate format: '" + argument + "'. Expected 'x, y' (comma-separated numeric values)"))
    else
      var point := PointOf(config, parts[0], parts[1]);
      if point.Err? then
        Err(ValueError("Failed to parse click coords '" + argument + "': " + point.error.message
          + ". Coordinates must be comma-separated numeric values, e.g., 'click(500, 300)'"))
      else point
  }

  /** Two fields read as floats and scaled; the first failure is reported. */
  function PointOf(config: PyautoguiConfig, xs: string, ys: string): (r: Result<(int, int)>)
    requires ValidConfig(config)
    ensures r.Ok? <==> (ParseFloat(xs).Some? && ParseFloat(ys).Some?
      && DenormalizeCoords(config, ParseFloat(xs).value, ParseFloat(ys).value).Ok?)
    ensures r.Ok? ==> r == DenormalizeCoords(config, ParseFloat(xs).value, ParseFloat(ys).value)
    ensures r.Err? ==> r.error.ValueError?
  {
    var x := FloatOf(Strip(xs));
    var y := FloatOf(Strip(ys));
    StripFloat(xs);
    StripFloat(ys);
    if x.Err? then Err(x.error)
    else if y.Err? then Err(y.error)
    else DenormalizeCoords(config, x.value, y.value)
  }

  /** `float` ignores surrounding white space, so stripping first changes nothing. */
  lemma StripFloat(s: string)
    ensures ParseFloat(Strip(s)) == ParseFloat(s)
  {
    StripIdempotent(s);
  }

  /** The advice that closes a drag-coordinate parse error. */
  const DragHint := ". Coordinates must be comma-separated numeric values, e.g., 'drag(100, 200, 300, 400)'"

  /** The message of a drag argument whose field `field` is not a number. */
  function DragFloatError(argument: string, field: string): string
  {
    "Failed to parse drag coords '" + argument + "': could not convert string to float: "
      + Json.Repr(Strip(field)) + DragHint
  }

  /** The first of the four comma fields that is not a number, if any. */
  function FirstNonNumber(parts: seq<string>): (k: nat)
    requires |parts| == 4
    ensures k <= 4
    ensures forall j :: 0 <= j < k ==> ParseFloat(parts[j]).Some?
    ensures k < 4 ==> ParseFloat(parts[k]).None?
  {
    var ok := seq(4, j requires 0 <= j < 4 => ParseFloat(parts[j]).Some?);
    assert forall j :: 0 <= j < 4 ==> ok[j] == ParseFloat(parts[j]).Some?;
    FirstFalse(ok)
  }

  /** The index of the first false entry, or the length when there is none. */
  function FirstFalse(ok: seq<bool>): (k: nat)
    ensures k <= |ok|
    ensures forall j :: 0 <= j < k ==> ok[j]
    ensures k < |ok| ==> !ok[k]
  {
    if ok == [] || !ok[0] then 0 else 1 + FirstFalse(ok[1..])
  }

  /**
   * `_parse_drag_coords`: exactly four comma fields, all four read as
   * floats before either point is scaled. A field that is not a number is
   * reported, the first one in order, even when an earlier coordinate is
   * off the grid.
   */
  function ParseDragCoords(config: PyautoguiConfig, argument: string): (r: Result<(int, int, int, int)>)
    requires ValidConfig(config)
    ensures r.Ok? ==> !Combined(argument) && |CommaFields(argument)| == 4
    ensures r.Ok? ==> var parts := CommaFields(argument);
      && PointOf(config, parts[0], parts[1]) == Ok((r.value.0, r.value.1))
      && PointOf(config, parts[2], parts[3]) == Ok((r.value.2, r.value.3))
    ensures r.Err? ==> r.error.ValueError?
    ensures !Combined(argument) && |CommaFields(argument)| == 4 && FirstNonNumber(CommaFields(argument)) < 4 ==>
      var parts := CommaFields(argument);
      r == Err(ValueError(DragFloatError(argument, parts[FirstNonNumber(parts)])))
  {
    var parts := CommaFields(argument);
    if Combined(argument) then
      Err(ValueError("Invalid drag format: '" + argument + "'. Cannot combine multiple actions with 'and' or 'then'. "
        + "Each action must be separate in the action list."))
    else if |parts| != 4 then
      Err(ValueError("Invalid drag coordinate format: '" + argument + "'. Expected 'x1, y1, x2, y2' (4 comma-separated numeric values)"))
    else
      var k := FirstNonNumber(parts);
      if k < 4 then
        Err(ValueError(DragFloatError(argument, parts[k])))
      else
        DragPoints(config, argument, ParseFloat(parts[0]).value, ParseFloat(parts[1]).value,
          ParseFloat(parts[2]).value, ParseFloat(parts[3]).value)
  }

  /** The scaling step of `_parse_drag_coords`, once all four numbers are read. */
  function DragPoints(config: PyautoguiConfig, argument: string, sx: Decimal, sy: Decimal, ex: Decimal, ey: Decimal)
    : (r: Result<(int, int, int, int)>)
    requires ValidConfig(config)
    ensures r.Ok? <==> DenormalizeCoords(config, sx, sy).Ok? && DenormalizeCoords(config, ex, ey).Ok?
    ensures r.Ok? ==> DenormalizeCoords(config, sx, sy) == Ok((r.value.0, r.value.1))
    ensures r.Ok? ==> DenormalizeCoords(config, ex, ey) == Ok((r.value.2, r.value.3))
    ensures r.Err? ==> r.error.ValueError?
  {
    var start := DenormalizeCoords(config, sx, sy);
    var end := DenormalizeCoords(config, ex, ey);
    if start.Err? then Err(ValueError("Failed to parse drag coords '" + argument + "': " + start.error.message + DragHint))
    else if end.Err? then Err(ValueError("Failed to parse drag coords '" + argument + "': " + end.error.message + DragHint))
    else Ok((start.value.0, start.value.1, end.value.0, end.value.1))
  }

  // ---------------------------------------------------------------------
  // keys
  // ---------------------------------------------------------------------

  /** The alias groups and the single aliases, each with its canonical name. */
  function KeyAlias(k: string): Option<string>
  {
    if k in {"page_up", "pageup", "pgup"} then Some("pageup")
    else if k in {"page_down", "pagedown", "pgdn"} then Some("pagedown")
    else if k in {"print_screen", "printscreen", "prtsc", "prtscr"} then Some("printscreen")
    else if k in {"num_lock", "numlock"} then Some("numlock")
    else if k in {"scroll_lock", "scrolllock"} then Some("scrolllock")
    else if k in {"caps_lock", "caps", "capslock"} then Some("capslock")
    else if k in {"windows", "super", "meta"} then Some("win")
    else if k == "cmd" then Some("command")
    else if k == "control" then Some("ctrl")
    else if k == "mute" then Some("volumemute")
    else if k == "play" then Some("playpause")
    else None
  }

  /** The canonical names of the alias groups map to themselves. */
  lemma GroupNamesFixed()
    ensures KeyAlias("pageup") == Some("pageup") && KeyAlias("pagedown") == Some("pagedown")
    ensures KeyAlias("printscreen") == Some("printscreen") && KeyAlias("numlock") == Some("numlock")
    ensures KeyAlias("scrolllock") == Some("scrolllock") && KeyAlias("capslock") == Some("capslock")
  {
  }

  /** The targets of the single aliases are not aliases themselves. */
  lemma SingleTargetsUnaliased()
    ensures KeyAlias("win") == None && KeyAlias("command") == None && KeyAlias("ctrl") == None
    ensures KeyAlias("volumemute") == None && KeyAlias("playpause") == None
  {
  }

  /** Every canonical name is a lower-case word. */
  lemma CanonicalLowerWords()
    ensures LowerWord("pageup") && LowerWord("pagedown") && LowerWord("printscreen") && LowerWord("numlock")
    ensures LowerWord("scrolllock") && LowerWord("capslock") && LowerWord("win") && LowerWord("command")
    ensures LowerWord("ctrl") && LowerWord("volumemute") && LowerWord("playpause")
  {
  }

  /** Every canonical name is its own alias or no alias at all, and is already normalised text. */
  lemma CanonicalNamesAreFixed(k: string)
    requires KeyAlias(k).Some?
    ensures var c := KeyAlias(k).value; KeyAlias(c).None? || KeyAlias(c) == Some(c)
    ensures Lower(Strip(KeyAlias(k).value)) == KeyAlias(k).value
  {
    GroupNamesFixed();
    SingleTargetsUnaliased();
    CanonicalLowerWords();
    var c := KeyAlias(k).value;
    assert LowerWord(c);
    LowerWordNormal(c);
  }

  /**
   * `_normalize_key`: stripped and lower-cased, then an alias is replaced
   * by its canonical pyautogui name.
   */
  function NormalizeKey(key: string): (r: string)
    ensures KeyAlias(Lower(Strip(key))).Some? ==> r == KeyAlias(Lower(Strip(key))).value
    ensures KeyAlias(Lower(Strip(key))).None? ==> r == Lower(Strip(key))
  {
    var k := Lower(Strip(key));
    match KeyAlias(k)
    case Some(c) => c
    case None => k
  }

  /** Normalising a normalised key changes nothing. */
  lemma NormalizeKeyIdempotent(key: string)
    ensures NormalizeKey(NormalizeKey(key)) == NormalizeKey(key)
  {
    var k := Lower(Strip(key));
    LowerStripped(key);
    if KeyAlias(k).Some? {
      CanonicalNamesAreFixed(k);
    }
  }

  /** A stripped, lower-cased text is its own `strip().lower()`. */
  lemma LowerStripped(key: string)
    ensures Lower(Strip(Lower(Strip(key)))) == Lower(Strip(key))
  {
    var t := Strip(key);
    var k := Lower(t);
    assert k == [] || (!IsSpace(k[0]) && !IsSpace(k[|k| - 1]));
    StripNoop(k);
    assert Lower(k) == k;
  }

  /** The keys of a combination: `+` separates when present, `,` otherwise. */
  function HotkeyFields(args: string): (parts: seq<string>)
    ensures |parts| >= 1
  {
    var s := StripChars(args, {'(', ')'});
    if '+' in s then Split(s, '+') else Split(s, ',')
  }

  function NormalizeKeys(parts: seq<string>): (keys: seq<string>)
    ensures |keys| == |parts|
    ensures forall i :: 0 <= i < |parts| ==> keys[i] == NormalizeKey(parts[i])
  {
    seq(|parts|, i requires 0 <= i < |parts| => NormalizeKey(parts[i]))
  }

  /** Every key of the combination is empty or known. */
  predicate AllKnown(keys: seq<string>, valid: set<string>)
  {
    forall i :: 0 <= i < |keys| ==> |keys[i]| == 0 || keys[i] in valid
  }

  /** The non-empty keys that are not in `valid`, in order. */
  function InvalidKeys(keys: seq<string>, valid: set<string>): (bad: seq<string>)
    ensures forall k :: k in bad <==> k in keys && |k| != 0 && k !in valid
    ensures bad == [] <==> AllKnown(keys, valid)
  {
    if |keys| == 0 then []
    else (if |keys[0]| != 0 && keys[0] !in valid then [keys[0]] else []) + InvalidKeys(keys[1..], valid)
  }

  /** The hint `_validate_keys` gives for one unknown key. */
  function Suggestion(key: string): string
  {
    if key in {"return", "ret"} then "'" + key + "' → use 'enter' or 'return'"
    else if key in {"delete", "del"} then "'" + key + "' → use 'delete' or 'del'"
    else if key in {"escape", "esc"} then "'" + key + "' → use 'escape' or 'esc'"
    else if StartsWith(key, "num") && |key| > 3 then "'" + key + "' → numpad keys use format 'num0'-'num9'"
    else "'" + key + "' is not a valid key name"
  }

  function Suggestions(bad: seq<string>): (r: seq<string>)
    ensures |r| == |bad|
  {
    seq(|bad|, i requires 0 <= i < |bad| => Suggestion(bad[i]))
  }

  /**
   * `_parse_hotkey` with `_validate_keys`: the normalised keys, or a
   * ValueError naming every non-empty key missing from `valid`.
   */
  function ParseHotkey(args: string, valid: set<string>): (r: Result<seq<string>>)
    ensures r.Ok? <==> AllKnown(NormalizeKeys(HotkeyFields(args)), valid)
    ensures r.Ok? ==> r.value == NormalizeKeys(HotkeyFields(args))
    ensures r.Err? ==> r.error.ValueError?
  {
    var keys := NormalizeKeys(HotkeyFields(args));
    var bad := InvalidKeys(keys, valid);
    if bad == [] then Ok(keys)
    else Err(ValueError("Invalid key name(s) in hotkey: " + Join(Suggestions(bad), ", ")))
  }

  /** The keys a combination names, empty ones dropped. */
  function Filled(keys: seq<string>): (r: seq<string>)
    ensures forall k :: k in r <==> k in keys && |k| != 0
    ensures |r| <= |keys|
  {
    if |keys| == 0 then [] else (if |keys[0]| != 0 then [keys[0]] else []) + Filled(keys[1..])
  }

  function ReprAll(keys: seq<string>): (r: seq<string>)
    ensures |r| == |keys|
  {
    seq(|keys|, i requires 0 <= i < |keys| => Json.Repr(keys[i]))
  }

  // ---------------------------------------------------------------------
  // one action
  // ---------------------------------------------------------------------

  /** What converting one action yields, and the caps-lock flag afterwards. */
  datatype Converted = Converted(result: Result<seq<string>>, capsEnabled: bool)

  /** `make_type_command`: short single-line ASCII text is typed, anything else pasted. */
  function MakeTypeCommand(text: string): (r: string)
    ensures Typable(text) ==> r == "PynputController().type(" + Json.Repr(text) + ")"
    ensures !Typable(text) ==> r == "_smart_paste(" + Json.Repr(text) + ")"
  {
    if Typable(text) then "PynputController().type(" + Json.Repr(text) + ")"
    else "_smart_paste(" + Json.Repr(text) + ")"
  }

  predicate Typable(text: string)
  {
    |text| <= 200 && forall i :: 0 <= i < |text| ==> text[i] as int < 128 && text[i] != '\n'
  }

  /** The pyautogui function of each click kind. */
  function ClickFunction(kind: ActionType): string
  {
    match kind
    case LeftDouble => "doubleClick"
    case LeftTriple => "tripleClick"
    case RightSingle => "rightClick"
    case _ => "click"
  }

  function ClickCommand(config: PyautoguiConfig, kind: ActionType, arg: string): (r: Result<seq<string>>)
    requires ValidConfig(config)
    ensures r.Ok? <==> ParseClickCoords(config, arg).Ok?
    ensures r.Ok? ==> var (x, y) := ParseClickCoords(config, arg).value;
      r.value == ["pyautogui." + ClickFunction(kind) + "(x=" + IntToString(x) + ", y=" + IntToString(y) + ")"]
  {
    match ParseClickCoords(config, arg)
    case Err(e) => Err(e)
    case Ok((x, y)) => Ok(["pyautogui." + ClickFunction(kind) + "(x=" + IntToString(x) + ", y=" + IntToString(y) + ")"])
  }

  function DragCommands(config: PyautoguiConfig, arg: string): (r: Result<seq<string>>)
    requires ValidConfig(config)
    ensures r.Ok? <==> ParseDragCoords(config, arg).Ok?
    ensures r.Ok? ==> |r.value| == 2
  {
    match ParseDragCoords(config, arg)
    case Err(e) => Err(e)
    case Ok((sx, sy, ex, ey)) =>
      Ok(["pyautogui.moveTo(" + IntToString(sx) + ", " + IntToString(sy) + ")",
          "pyautogui.dragTo(" + IntToString(ex) + ", " + IntToString(ey) + ", duration="
            + Decimals.Repr(config.dragDuration) + ")"])
  }

  /** The combination is caps lock and nothing else. */
  predicate LoneCapsLock(keys: seq<string>)
  {
    Filled(keys) == ["capslock"]
  }

  /** `pyautogui.hotkey(k1, k2, ..., interval=i)` with each key quoted. */
  function HotkeyCall(keys: seq<string>, interval: Decimal): string
  {
    "pyautogui.hotkey(" + Join(ReprAll(keys), ", ") + ", interval=" + Decimals.Repr(interval) + ")"
  }

  /**
   * The hotkey branch. A lone caps lock is pressed in system mode and only
   * toggles the session flag in session mode, with no command; any other
   * combination is one `hotkey` call.
   */
  function HotkeyCommands(config: PyautoguiConfig, valid: set<string>, mode: CapsMode, capsOn: bool, arg: string): (c: Converted)
    ensures ParseHotkey(arg, valid).Ok? ==> c == KeysCommands(config, mode, capsOn, arg, ParseHotkey(arg, valid).value)
    ensures ParseHotkey(arg, valid).Err? ==> c.capsEnabled == capsOn && c.result.IsValueError()
  {
    match ParseHotkey(arg, valid)
    case Err(e) => Converted(Err(e), capsOn)
    case Ok(keys) => KeysCommands(config, mode, capsOn, arg, keys)
  }

  function KeysCommands(config: PyautoguiConfig, mode: CapsMode, capsOn: bool, arg: string, keys: seq<string>): (c: Converted)
    ensures c.capsEnabled != capsOn <==> mode == Session && LoneCapsLock(keys)
    ensures c.capsEnabled != capsOn ==> c.result == Ok([])
    ensures c.result.Ok? <==> Filled(keys) != []
    ensures c.result.Ok? && !(mode == Session && LoneCapsLock(keys)) ==>
      c.result.value == [HotkeyCall(Filled(keys), config.hotkeyInterval)]
    ensures c.result.Err? ==> c.result.error.ValueError?
  {
    var filled := Filled(keys);
    if filled == [] then
      Converted(Err(ValueError("Invalid hotkey format: '" + arg + "'. Expected key names like 'ctrl+c', 'alt+tab', got empty or invalid keys")), capsOn)
    else if LoneCapsLock(keys) && mode == Session then Converted(Ok([]), !capsOn)
    else Converted(Ok([HotkeyCall(filled, config.hotkeyInterval)]), capsOn)
  }

  /** The scroll branch: exactly three fields, a scaled point and a direction of up or down. */
  function ScrollCommands(config: PyautoguiConfig, arg: string): (r: Result<seq<string>>)
    requires ValidConfig(config)
    ensures r.Ok? ==> |Split(arg, ',')| == 3 && ScrollDirection(Split(arg, ',')[2]) in {"up", "down"}
    ensures r.Ok? ==> |r.value| == 2 && r.value[1] == ScrollCall(config, ScrollDirection(Split(arg, ',')[2]))
    ensures r.Err? ==> r.error.ValueError?
  {
    var fields := Split(arg, ',');
    if |fields| != 3 then
      Err(ValueError("Invalid scroll format: '" + arg + "'. Expected 'x, y, direction' (3 comma-separated values), got "
        + NatToString(|fields|) + " parts"))
    else ScrollFields(config, arg, fields[0], fields[1], fields[2])
  }

  /** The direction field, lower-cased and stripped. */
  function ScrollDirection(field: string): string
  {
    Strip(Lower(Strip(field)))
  }

  /** `pyautogui.scroll(n)`: the configured amount, upwards for "up" and downwards otherwise. */
  function ScrollCall(config: PyautoguiConfig, direction: string): string
  {
    "pyautogui.scroll(" + IntToString(if direction == "up" then config.scrollAmount else -config.scrollAmount) + ")"
  }

  /**
   * The three fields of a scroll: the point is scaled before the direction
   * is checked. `float` ignores the white space the source strips first.
   */
  function ScrollFields(config: PyautoguiConfig, arg: string, xf: string, yf: string, df: string): (r: Result<seq<string>>)
    requires ValidConfig(config)
    ensures r.Ok? ==> ScrollDirection(df) in {"up", "down"} && |r.value| == 2 && r.value[1] == ScrollCall(config, ScrollDirection(df))
    ensures r.Err? ==> r.error.ValueError?
  {
    var xs, ys := ParseFloat(xf), ParseFloat(yf);
    if xs.None? || ys.None? then
      Err(ValueError("Invalid scroll coordinates: '" + arg + "'. x and y must be numeric values, e.g., 'scroll(500, 300, up)'"))
    else ScrollTo(config, arg, DenormalizeCoords(config, xs.value, ys.value), df)
  }

  /** The scaled point, or its error, then the direction check. */
  function ScrollTo(config: PyautoguiConfig, arg: string, point: Result<(int, int)>, df: string): (r: Result<seq<string>>)
    requires point.Err? ==> point.error.ValueError?
    ensures r.Ok? ==> ScrollDirection(df) in {"up", "down"} && |r.value| == 2 && r.value[1] == ScrollCall(config, ScrollDirection(df))
    ensures r.Err? ==> r.error.ValueError?
  {
    match point
    case Err(e) => Err(e)
    case Ok((x, y)) =>
      var direction := ScrollDirection(df);
      if direction == "up" || direction == "down" then
        Ok(["pyautogui.moveTo(" + IntToString(x) + ", " + IntToString(y) + ")", ScrollCall(config, direction)])
      else
        Err(ValueError("Invalid scroll direction: '" + direction + "' in '" + arg + "'. Expected 'up' or 'down'"))
  }

  /** The wait branch: the argument's seconds, or the configured default when it is empty. */
  function WaitCommand(config: PyautoguiConfig, arg: string): (r: Result<seq<string>>)
    ensures r.Ok? <==> arg == [] || ParseFloat(arg).Some?
    ensures r.Ok? ==> r.value == ["WAIT(" + Decimals.Repr(if arg == [] then config.waitDuration else ParseFloat(arg).value) + ")"]
    ensures r.Err? ==> r.error.ValueError?
  {
    if arg == [] then Ok(["WAIT(" + Decimals.Repr(config.waitDuration) + ")"])
    else
      match ParseFloat(arg)
      case None => Err(ValueError("Invalid wait duration: '" + arg + "'. Expected numeric value in seconds, e.g., 'wait(2.0)'"))
      case Some(d) => Ok(["WAIT(" + Decimals.Repr(d) + ")"])
  }

  predicate IsClick(kind: ActionType)
  {
    kind.Click? || kind.LeftDouble? || kind.LeftTriple? || kind.RightSingle?
  }

  /**
   * `_convert_single_action`, with the caps-lock flag before and after.
   * The argument loses its outer parentheses first; only the hotkey
   * branch can change the flag.
   */
  function Single(config: PyautoguiConfig, valid: set<string>, mode: CapsMode, capsOn: bool, a: Action): (c: Converted)
    requires ValidConfig(config)
    ensures a.kind == Hotkey ==> c == HotkeyCommands(config, valid, mode, capsOn, StripChars(a.argument, {'(', ')'}))
    ensures a.kind != Hotkey ==> c == Converted(Other(config, mode, capsOn, a), capsOn)
  {
    if a.kind == Hotkey then HotkeyCommands(config, valid, mode, capsOn, StripChars(a.argument, {'(', ')'}))
    else Converted(Other(config, mode, capsOn, a), capsOn)
  }

  /** Every branch of `_convert_single_action` but the hotkey one. */
  function Other(config: PyautoguiConfig, mode: CapsMode, capsOn: bool, a: Action): Result<seq<string>>
    requires ValidConfig(config)
  {
    if IsClick(a.kind) || a.kind in {Drag, Scroll, Wait} then Positioned(config, a)
    else Fixed(mode, capsOn, a)
  }

  /** The branches that read coordinates or seconds from the argument. */
  function Positioned(config: PyautoguiConfig, a: Action): Result<seq<string>>
    requires ValidConfig(config) && (IsClick(a.kind) || a.kind in {Drag, Scroll, Wait})
  {
    var arg := StripChars(a.argument, {'(', ')'});
    if IsClick(a.kind) then ClickCommand(config, a.kind, arg)
    else if a.kind == Drag then DragCommands(config, arg)
    else if a.kind == Scroll then ScrollCommands(config, arg)
    else WaitCommand(config, arg)
  }

  /** The branches whose commands do not depend on the sandbox. */
  function Fixed(mode: CapsMode, capsOn: bool, a: Action): (r: Result<seq<string>>)
    ensures a.kind == Finish ==> r == Ok(["DONE"])
    ensures a.kind == Fail ==> r == Ok(["FAIL"])
    ensures a.kind == CallUser ==> r == Ok([])
    ensures a.kind == Type ==> r == Ok([TypeCommand(mode, capsOn, a.argument)])
    ensures a.kind in {MouseMove, LeftClickDrag, PressClick} ==> r.IsValueError()  // the kinds with no branch
  {
    if a.kind == Type then Ok([TypeCommand(mode, capsOn, a.argument)])
    else if a.kind == Finish then Ok(["DONE"])
    else if a.kind == Fail then Ok(["FAIL"])
    else if a.kind == CallUser then Ok([])
    else
      Err(ValueError("Unknown action type: '" + Name(a.kind) + "'. Supported types: click, left_double, "
        + "left_triple, right_single, drag, hotkey, type, scroll, wait, finish, fail"))
  }

  /** The command that types an action's argument: unquoted, caps-transformed, then typed or pasted. */
  function TypeCommand(mode: CapsMode, capsOn: bool, argument: string): string
  {
    MakeTypeCommand(Transform(mode, capsOn, TypedText(argument)))
  }

  /** The typed text: outer parentheses, then outer quotes, removed. */
  function TypedText(argument: string): (t: string)
    ensures t == [] || (t[0] !in {'"', '\''} && t[|t| - 1] !in {'"', '\''})
  {
    StripChars(StripChars(argument, {'(', ')'}), {'"', '\''})
  }

  // ---------------------------------------------------------------------
  // repetition
  // ---------------------------------------------------------------------

  /** One pass over the commands; only its last command carries `last`. */
  function Pass(cmds: seq<string>, last: bool): (r: seq<(string, bool)>)
    ensures |r| == |cmds|
    ensures forall j :: 0 <= j < |cmds| ==> r[j] == (cmds[j], last && j == |cmds| - 1)
  {
    seq(|cmds|, j requires 0 <= j < |cmds| => (cmds[j], last && j == |cmds| - 1))
  }

  /** The first `i` of `n` passes; the pass numbered `n - 1` is the last one. */
  function Passes(cmds: seq<string>, i: nat, n: nat): seq<(string, bool)>
  {
    if i == 0 then [] else Passes(cmds, i - 1, n) + Pass(cmds, i - 1 == n - 1)
  }

  /** `_convert_action`'s output for commands repeated `n` times. */
  function Expand(cmds: seq<string>, n: nat): seq<(string, bool)>
  {
    Passes(cmds, n, n)
  }

  /** The repeat count `range(int(count))` runs: `count or 1`, nothing when negative. */
  function Times(a: Action): (n: nat)
    ensures ValidAction(a) ==> n == Repeats(a) && n >= 1
  {
    if Repeats(a) < 0 then 0 else Repeats(a)
  }

  function Commands(tagged: seq<(string, bool)>): (r: seq<string>)
    ensures |r| == |tagged|
    ensures forall k :: 0 <= k < |tagged| ==> r[k] == tagged[k].0
  {
    seq(|tagged|, k requires 0 <= k < |tagged| => tagged[k].0)
  }

  /** `n` copies of `cmds`, one after the other. */
  function Repeat(cmds: seq<string>, n: nat): (r: seq<string>)
    ensures |r| == n * |cmds|
  {
    if n == 0 then [] else Repeat(cmds, n - 1) + cmds
  }

  /** The commands of the first `i` passes are `i` copies of the action's commands. */
  lemma {:induction false} PassesCommands(cmds: seq<string>, i: nat, n: nat)
    ensures Commands(Passes(cmds, i, n)) == Repeat(cmds, i)
  {
    if i > 0 {
      PassesCommands(cmds, i - 1, n);
      var prev := Passes(cmds, i - 1, n);
      var p := Pass(cmds, i - 1 == n - 1);
      assert Commands(prev + p) == Commands(prev) + Commands(p);
      assert Commands(p) == cmds;
    }
  }

  /** Before the last pass nothing is marked last. */
  lemma {:induction false} PassesUnmarked(cmds: seq<string>, i: nat, n: nat)
    requires i < n
    ensures forall k :: 0 <= k < |Passes(cmds, i, n)| ==> !Passes(cmds, i, n)[k].1
  {
    if i > 0 {
      PassesUnmarked(cmds, i - 1, n);
    }
  }

  /**
   * An action repeated `n` times yields `n` copies of its commands, and
   * exactly its final command is marked last (none when it has no command).
   */
  lemma ExpandShape(cmds: seq<string>, n: nat)
    ensures Commands(Expand(cmds, n)) == Repeat(cmds, n)
    ensures |Expand(cmds, n)| == n * |cmds|
    ensures forall k :: 0 <= k < |Expand(cmds, n)| ==> (Expand(cmds, n)[k].1 <==> k == |Expand(cmds, n)| - 1)
  {
    PassesCommands(cmds, n, n);
    if n > 0 {
      PassesUnmarked(cmds, n - 1, n);
      var prev: seq<(string, bool)> := Passes(cmds, n - 1, n);
      var p: seq<(string, bool)> := Pass(cmds, true);
      assert Expand(cmds, n) == prev + p;
      forall k | 0 <= k < |prev + p|
        ensures (prev + p)[k].1 <==> k == |prev + p| - 1
      {
        if k < |prev| {
          assert (prev + p)[k] == prev[k];
        } else {
          assert (prev + p)[k] == p[k - |prev|];
        }
      }
    }
  }

  /**
   * The repeat loop of `_convert_action`: `n` passes over the commands,
   * with only the final command of the final pass marked last.
   */
  method RepeatCommands(cmds: seq<string>, n: nat) returns (out: seq<(string, bool)>)
    ensures out == Expand(cmds, n)
    ensures Commands(out) == Repeat(cmds, n)
    ensures forall k :: 0 <= k < |out| ==> (out[k].1 <==> k == |out| - 1)
  {
    out := [];
    for i := 0 to n
      invariant out == Passes(cmds, i, n)
    {
      var isLastRepeat := i == n - 1;
      for j := 0 to |cmds|
        invariant out == Passes(cmds, i, n) + Pass(cmds, isLastRepeat)[..j]
      {
        out := out + [(cmds[j], isLastRepeat && j == |cmds| - 1)];
      }
      assert Pass(cmds, isLastRepeat)[..|cmds|] == Pass(cmds, isLastRepeat);
    }
    ExpandShape(cmds, n);
  }

  // ---------------------------------------------------------------------
  // the batch
  // ---------------------------------------------------------------------

  /** The state of `__call__`'s loop, or the duplicate FINISH/FAIL that ended it. */
  datatype Progress =
    | Progress(converted: seq<(string, bool)>, failed: seq<(string, string)>, hasTerminal: bool, capsEnabled: bool)
    | Aborted(capsEnabled: bool)

  const DuplicateTerminal: Error :=
    ValueError("Duplicate finish()/fail() detected. Only one finish() or fail() is allowed per action sequence.")

  /** How a failed action is named in the failure list: `type(argument)`. */
  function ActionLabel(a: Action): string
  {
    Name(a.kind) + "(" + a.argument + ")"
  }

  /**
   * The conversion of one action from the caps flag before it. The loop of
   * `__call__` is stated over any conversion; `Convertor` is the one the
   * convertor uses.
   */
  type Conversion = (bool, Action) --> Converted

  ghost predicate Total(convert: Conversion)
  {
    forall caps: bool, a: Action :: convert.requires(caps, a)
  }

  /** `_convert_single_action` as a conversion. */
  function Convertor(config: PyautoguiConfig, valid: set<string>, mode: CapsMode): (convert: Conversion)
    requires ValidConfig(config)
    ensures Total(convert)
    ensures forall caps: bool, a: Action :: convert(caps, a) == Single(config, valid, mode, caps, a)
  {
    (caps: bool, a: Action) requires ValidConfig(config) => Single(config, valid, mode, caps, a)
  }

  /** One iteration of `__call__`'s loop. */
  function Advance(convert: Conversion, p: Progress, a: Action): (q: Progress)
    requires Total(convert)
    ensures p.Aborted? ==> q == p
    ensures p.Progress? && p.hasTerminal && IsTerminal(a.kind) ==> q == Aborted(p.capsEnabled)
    ensures p.Progress? && !(p.hasTerminal && IsTerminal(a.kind)) ==>
      q.Progress? && q.hasTerminal == (p.hasTerminal || IsTerminal(a.kind))
      && q.capsEnabled == convert(p.capsEnabled, a).capsEnabled
  {
    if p.Aborted? then p
    else if p.hasTerminal && IsTerminal(a.kind) then Aborted(p.capsEnabled)
    else
      var c := convert(p.capsEnabled, a);
      var hasTerminal := p.hasTerminal || IsTerminal(a.kind);
      match c.result
      case Ok(cmds) => Progress(p.converted + Expand(cmds, Times(a)), p.failed, hasTerminal, c.capsEnabled)
      case Err(e) => Progress(p.converted, p.failed + [(ActionLabel(a), e.message)], hasTerminal, c.capsEnabled)
  }

  /** An iteration that does not abort appends the repeated commands, or records the failure. */
  lemma AdvanceConverted(convert: Conversion, p: Progress, a: Action, c: Converted, out: Result<seq<(string, bool)>>)
    requires Total(convert) && p.Progress? && !(p.hasTerminal && IsTerminal(a.kind))
    requires c == convert(p.capsEnabled, a)
    requires out == (match c.result case Ok(cmds) => Ok(Expand(cmds, Times(a))) case Err(e) => Err(e))
    ensures out.Ok? ==> Advance(convert, p, a) == Progress(p.converted + out.value, p.failed, p.hasTerminal || IsTerminal(a.kind), c.capsEnabled)
    ensures out.Err? ==>
      Advance(convert, p, a) == Progress(p.converted, p.failed + [(ActionLabel(a), out.error.message)], p.hasTerminal || IsTerminal(a.kind), c.capsEnabled)
  {
  }

  /** The loop state after the given actions, from caps flag `caps0`. */
  function Run(convert: Conversion, caps0: bool, actions: seq<Action>): Progress
    requires Total(convert)
  {
    if |actions| == 0 then Progress([], [], false, caps0)
    else Advance(convert, Run(convert, caps0, actions[..|actions| - 1]), actions[|actions| - 1])
  }

  /** The result of the loop: the duplicate error, the RuntimeError for nothing converted, or the commands. */
  function Outcome(convert: Conversion, caps0: bool, actions: seq<Action>): (r: (Result<seq<(string, bool)>>, bool))
    requires Total(convert)
    ensures actions == [] ==> r == (Ok([]), caps0)
    ensures r.0.Ok? && actions != [] ==> r.0.value != []
    ensures actions != [] && Run(convert, caps0, actions).Aborted? ==> r.0 == Err(DuplicateTerminal)
    ensures actions != [] && Run(convert, caps0, actions).Progress? && Run(convert, caps0, actions).converted == [] ==>
      r.0.Err? && r.0.error.RuntimeError?
    ensures actions != [] ==> r.1 == Run(convert, caps0, actions).capsEnabled
  {
    if actions == [] then (Ok([]), caps0)
    else
      match Run(convert, caps0, actions)
      case Aborted(caps) => (Err(DuplicateTerminal), caps)
      case Progress(converted, failed, _, caps) =>
        if converted == [] then
          (Err(RuntimeError("All action conversions failed (" + NatToString(|failed|) + "/" + NatToString(|actions|) + ")")), caps)
        else (Ok(converted), caps)
  }

  /**
   * `__call__`: an empty batch is `[]`; a second FINISH/FAIL aborts the
   * batch; failing actions are collected and skipped; a batch that yields
   * no command at all is a RuntimeError. The second component is the caps
   * flag afterwards.
   */
  function Batch(config: PyautoguiConfig, valid: set<string>, mode: CapsMode, caps0: bool, actions: seq<Action>): (r: (Result<seq<(string, bool)>>, bool))
    requires ValidConfig(config)
  {
    Outcome(Convertor(config, valid, mode), caps0, actions)
  }

  /** Once aborted, the run stays aborted. */
  lemma {:induction false} AbortedStays(convert: Conversion, caps0: bool, actions: seq<Action>, i: nat)
    requires Total(convert) && i <= |actions|
    requires Run(convert, caps0, actions[..i]).Aborted?
    ensures Run(convert, caps0, actions) == Run(convert, caps0, actions[..i])
    decreases |actions| - i
  {
    if i < |actions| {
      RunStep(convert, caps0, actions, i);
      AbortedStays(convert, caps0, actions, i + 1);
    } else {
      assert actions[..i] == actions;
    }
  }

  /** One more action is one more loop iteration. */
  lemma RunStep(convert: Conversion, caps0: bool, actions: seq<Action>, k: nat)
    requires Total(convert) && k < |actions|
    ensures Run(convert, caps0, actions[..k + 1]) == Advance(convert, Run(convert, caps0, actions[..k]), actions[k])
  {
    assert actions[..k + 1][..k] == actions[..k];
  }

  /** After a terminal action the run has seen one, or has already aborted. */
  lemma {:induction false} TerminalRemembered(convert: Conversion, caps0: bool, actions: seq<Action>, i: nat, j: nat)
    requires Total(convert) && i < j <= |actions|
    requires IsTerminal(actions[i].kind)
    ensures var p := Run(convert, caps0, actions[..j]); p.Aborted? || p.hasTerminal
    decreases j
  {
    RunStep(convert, caps0, actions, j - 1);
    if j - 1 > i {
      TerminalRemembered(convert, caps0, actions, i, j - 1);
    }
  }

  /** Under any conversion, a second FINISH/FAIL aborts the batch with the duplicate error. */
  lemma DuplicateTerminalAborts(convert: Conversion, caps0: bool, actions: seq<Action>, i: nat, j: nat)
    requires Total(convert) && i < j < |actions|
    requires IsTerminal(actions[i].kind) && IsTerminal(actions[j].kind)
    ensures Outcome(convert, caps0, actions).0 == Err(DuplicateTerminal)
  {
    TerminalRemembered(convert, caps0, actions, i, j);
    RunStep(convert, caps0, actions, j);
    AbortedStays(convert, caps0, actions, j + 1);
  }

  /** Non-terminal actions that yield nothing and keep the flag leave the run empty. */
  lemma {:induction false} SilentRun(convert: Conversion, caps0: bool, actions: seq<Action>)
    requires Total(convert)
    requires forall k :: 0 <= k < |actions| ==> !IsTerminal(actions[k].kind)
    requires forall k :: 0 <= k < |actions| ==> convert(caps0, actions[k]) == Converted(Ok([]), caps0)
    ensures Run(convert, caps0, actions) == Progress([], [], false, caps0)
  {
    if |actions| > 0 {
      var n := |actions| - 1;
      assert actions[..n][..] == actions[..n];
      SilentRun(convert, caps0, actions[..n]);
      ExpandShape([], Times(actions[n]));
    }
  }

  /** A batch of one non-terminal action that yields nothing is one silent step. */
  lemma SilentSingleton(convert: Conversion, caps0: bool, a: Action)
    requires Total(convert) && !IsTerminal(a.kind) && convert(caps0, a).result == Ok([])
    ensures Outcome(convert, caps0, [a]).0.Err? && Outcome(convert, caps0, [a]).0.error.RuntimeError?
    ensures Outcome(convert, caps0, [a]).1 == convert(caps0, a).capsEnabled
  {
    assert [a][..0] == [];
    ExpandShape([], Times(a));
    assert Run(convert, caps0, [a]) == Progress([], [], false, convert(caps0, a).capsEnabled);
  }

  /** Two FINISH/FAIL actions in one batch make it a ValueError, whatever else it holds. */
  lemma SecondTerminalRejected(config: PyautoguiConfig, valid: set<string>, mode: CapsMode, caps0: bool,
                               actions: seq<Action>, i: nat, j: nat)
    requires ValidConfig(config) && i < j < |actions|
    requires IsTerminal(actions[i].kind) && IsTerminal(actions[j].kind)
    ensures Batch(config, valid, mode, caps0, actions).0 == Err(DuplicateTerminal)
  {
    DuplicateTerminalAborts(Convertor(config, valid, mode), caps0, actions, i, j);
  }

  /** call_user yields no command and leaves the caps flag alone. */
  lemma CallUserSilent(config: PyautoguiConfig, valid: set<string>, mode: CapsMode, caps: bool, a: Action)
    requires ValidConfig(config) && a.kind == CallUser
    ensures Single(config, valid, mode, caps, a) == Converted(Ok([]), caps)
  {
    assert Single(config, valid, mode, caps, a) == Converted(Other(config, mode, caps, a), caps);
    assert Other(config, mode, caps, a) == Fixed(mode, caps, a);
  }

  /** A batch of call_user actions only is a RuntimeError, although no action failed. */
  lemma CallUserOnlyIsRuntimeError(config: PyautoguiConfig, valid: set<string>, mode: CapsMode, caps0: bool, actions: seq<Action>)
    requires ValidConfig(config) && actions != []
    requires forall k :: 0 <= k < |actions| ==> actions[k].kind == CallUser
    ensures Batch(config, valid, mode, caps0, actions).0.Err?
    ensures Batch(config, valid, mode, caps0, actions).0.error.RuntimeError?
  {
    var convert := Convertor(config, valid, mode);
    forall k | 0 <= k < |actions|
      ensures convert(caps0, actions[k]) == Converted(Ok([]), caps0)
    {
      CallUserSilent(config, valid, mode, caps0, actions[k]);
    }
    SilentRun(convert, caps0, actions);
  }

  /**
   * A batch of one non-terminal action that converts to nothing is a
   * RuntimeError; with `LoneCapsLockToggles`, a session-mode batch holding
   * only a caps-lock press fails so, after toggling the flag.
   */
  lemma SilentBatch(config: PyautoguiConfig, valid: set<string>, mode: CapsMode, caps0: bool, a: Action, caps1: bool)
    requires ValidConfig(config) && !IsTerminal(a.kind)
    requires Single(config, valid, mode, caps0, a) == Converted(Ok([]), caps1)
    ensures Batch(config, valid, mode, caps0, [a]).0.Err?
    ensures Batch(config, valid, mode, caps0, [a]).0.error.RuntimeError?
    ensures Batch(config, valid, mode, caps0, [a]).1 == caps1
  {
    SilentSingleton(Convertor(config, valid, mode), caps0, a);
  }

  /** In session mode a lone caps-lock press yields nothing and flips the flag. */
  lemma LoneCapsLockToggles(config: PyautoguiConfig, valid: set<string>, caps0: bool, a: Action)
    requires ValidConfig(config) && a.kind == Hotkey
    requires ParseHotkey(StripChars(a.argument, {'(', ')'}), valid).Ok?
    requires LoneCapsLock(ParseHotkey(StripChars(a.argument, {'(', ')'}), valid).value)
    ensures Single(config, valid, Session, caps0, a) == Converted(Ok([]), !caps0)
  {
    var arg := StripChars(a.argument, {'(', ')'});
    assert Single(config, valid, Session, caps0, a) == HotkeyCommands(config, valid, Session, caps0, arg);
    HotkeyToggles(config, valid, caps0, arg);
  }

  lemma HotkeyToggles(config: PyautoguiConfig, valid: set<string>, caps0: bool, arg: string)
    requires ParseHotkey(arg, valid).Ok? && LoneCapsLock(ParseHotkey(arg, valid).value)
    ensures HotkeyCommands(config, valid, Session, caps0, arg) == Converted(Ok([]), !caps0)
  {
    var keys := ParseHotkey(arg, valid).value;
    assert HotkeyCommands(config, valid, Session, caps0, arg) == KeysCommands(config, Session, caps0, arg, keys);
    KeysToggle(config, caps0, arg, keys);
  }

  lemma KeysToggle(config: PyautoguiConfig, caps0: bool, arg: string, keys: seq<string>)
    requires LoneCapsLock(keys)
    ensures KeysCommands(config, Session, caps0, arg, keys) == Converted(Ok([]), !caps0)
  {
    var c := KeysCommands(config, Session, caps0, arg, keys);
    assert c.capsEnabled == !caps0 && c.result == Ok([]);
  }

  // ---------------------------------------------------------------------
  // the convertor object
  // ---------------------------------------------------------------------

  class PyautoguiActionConvertor {
    const config: PyautoguiConfig
    /** `PYAUTOGUI_VALID_KEYS`. */
    const validKeys: set<string>
    const caps: CapsLockManager

    constructor (config: PyautoguiConfig, validKeys: set<string>)
      requires ValidConfig(config)
      ensures this.config == config && this.validKeys == validKeys
      ensures fresh(caps) && caps.mode == config.capslockMode && !caps.capsEnabled
    {
      this.config := config;
      this.validKeys := validKeys;
      caps := new CapsLockManager(config.capslockMode);
    }

    /** `_convert_single_action`; the hotkey branch may toggle the session caps lock. */
    method ConvertSingleAction(a: Action) returns (r: Result<seq<string>>)
      requires ValidConfig(config)
      modifies caps
      ensures Converted(r, caps.capsEnabled) == Single(config, validKeys, caps.mode, old(caps.capsEnabled), a)
    {
      if a.kind == Hotkey {
        var c := HotkeyCommands(config, validKeys, caps.mode, caps.capsEnabled, StripChars(a.argument, {'(', ')'}));
        if c.capsEnabled != caps.capsEnabled {
          caps.Toggle();
        }
        r := c.result;
      } else {
        r := Single(config, validKeys, caps.mode, caps.capsEnabled, a).result;
      }
    }

    /**
     * `_convert_action`: the single conversion is done once and its
     * commands are repeated; only the last command of the last pass is
     * marked last.
     */
    method ConvertAction(a: Action) returns (r: Result<seq<(string, bool)>>)
      requires ValidConfig(config)
      modifies caps
      ensures var c := Single(config, validKeys, caps.mode, old(caps.capsEnabled), a);
        && caps.capsEnabled == c.capsEnabled
        && r == (match c.result case Ok(cmds) => Ok(Expand(cmds, Times(a))) case Err(e) => Err(e))
    {
      var single := ConvertSingleAction(a);
      if single.Err? {
        return Err(single.error);
      }
      var out := RepeatCommands(single.value, Times(a));
      r := Ok(out);
    }

    /** `__call__` over a batch of actions. */
    method Call(actions: seq<Action>) returns (r: Result<seq<(string, bool)>>)
      requires ValidConfig(config)
      modifies caps
      ensures (r, caps.capsEnabled) == Batch(config, validKeys, caps.mode, old(caps.capsEnabled), actions)
    {
      ghost var convert := Convertor(config, validKeys, caps.mode);
      ghost var caps0 := caps.capsEnabled;
      if actions == [] {
        return Ok([]);
      }
      var converted: seq<(string, bool)> := [];
      var failed: seq<(string, string)> := [];
      var hasTerminal := false;
      for i := 0 to |actions|
        invariant Run(convert, caps0, actions[..i]) == Progress(converted, failed, hasTerminal, caps.capsEnabled)
      {
        var a := actions[i];
        RunStep(convert, caps0, actions, i);
        ghost var p := Progress(converted, failed, hasTerminal, caps.capsEnabled);
        ghost var c := convert(caps.capsEnabled, a);
        if IsTerminal(a.kind) {
          if hasTerminal {
            AbortedStays(convert, caps0, actions, i + 1);
            return Err(DuplicateTerminal);
          }
          hasTerminal := true;
        }
        var out := ConvertAction(a);
        AdvanceConverted(convert, p, a, c, out);
        if out.Ok? {
          converted := converted + out.value;
        } else {
          failed := failed + [(ActionLabel(a), out.error.message)];
        }
      }
      assert actions[..|actions|] == actions;
      if converted == [] {
        r := Err(RuntimeError("All action conversions failed (" + NatToString(|failed|) + "/" + NatToString(|actions|) + ")"));
      } else {
        r := Ok(converted);
      }
    }
  }

  // ---------------------------------------------------------------------
  // command strings to runtime steps
  // ---------------------------------------------------------------------

  /** A runtime step: sleep, run pyautogui code, or run a shell command. */
  datatype RuntimeStep = Sleep(seconds: Decimal) | PyautoguiCode(code: string) | Execute(command: string, shell: bool)

  /** The seconds of `^WAIT\(([0-9]*\.?[0-9]+)\)$`, matched without regard to case. */
  function WaitSeconds(s: string): (r: Option<Decimal>)
    ensures r.Some? ==> |s| >= 7 && Lower(s[..5]) == "wait(" && s[|s| - 1] == ')' && WaitNumber(s[5..|s| - 1])
  {
    if |s| >= 7 && Lower(s[..5]) == "wait(" && s[|s| - 1] == ')' && WaitNumber(s[5..|s| - 1]) then
      ParseUnsigned(s[5..|s| - 1])
    else None
  }

  /** `[0-9]*\.?[0-9]+`: digits, at most one point, and a digit at the end. */
  predicate WaitNumber(m: string)
  {
    && |m| > 0 && IsDigit(m[|m| - 1])
    && forall i :: 0 <= i < |m| ==> IsDigit(m[i]) || (m[i] == '.' && forall j :: 0 <= j < |m| && j != i ==> m[j] != '.')
  }

  /** The code markers that select direct pyautogui execution. */
  predicate PyautoguiMarked(lower: string)
  {
    Contains(lower, "pyautogui") || Contains(lower, "pynputcontroller") || Contains(lower, "_smart_paste")
  }

  /**
   * `action_string_to_step`: an empty string is a ValueError; DONE and FAIL
   * sleep for 0 seconds; `WAIT(n)` sleeps `n` seconds; text naming
   * pyautogui, PynputController or `_smart_paste` is pyautogui code; the
   * rest is a shell command.
   */
  function ActionStringToStep(action: string): (r: Result<RuntimeStep>)
    ensures r.Err? <==> Strip(action) == []
    ensures r.Err? ==> r.error.ValueError?
    ensures r.Ok? && Upper(Strip(action)) in {"DONE", "FAIL"} ==> r.value == Sleep(FromInt(0))
    ensures r.Ok? && r.value.PyautoguiCode? ==> r.value.code == Strip(action) && PyautoguiMarked(Lower(Strip(action)))
    ensures r.Ok? && r.value.Execute? ==> r.value == Execute(Strip(action), true) && !PyautoguiMarked(Lower(Strip(action)))
  {
    var s := Strip(action);
    if s == [] then Err(ValueError("Empty action string — invalid model output format"))
    else if Upper(s) in {"DONE", "FAIL"} then Ok(Sleep(FromInt(0)))
    else if WaitSeconds(s).Some? then Ok(Sleep(WaitSeconds(s).value))
    else if PyautoguiMarked(Lower(s)) then Ok(PyautoguiCode(s))
    else Ok(Execute(s, true))
  }
  /**
   * The five rules of the dispatch, each with the step it yields: blank text
   * is refused, DONE and FAIL sleep 0 seconds, a `WAIT(n)` sleeps `n`
   * seconds, marked code runs as pyautogui code and the rest in a shell.
   */
  lemma StepDispatch(action: string)
    ensures var s := Strip(action);
      && (s == [] ==> ActionStringToStep(action) == Err(ValueError("Empty action string — invalid model output format")))
      && (s != [] && Upper(s) in {"DONE", "FAIL"} ==> ActionStringToStep(action) == Ok(Sleep(FromInt(0))))
      && (s != [] && Upper(s) !in {"DONE", "FAIL"} && WaitSeconds(s).Some? ==>
            ActionStringToStep(action) == Ok(Sleep(WaitSeconds(s).value)))
      && (s != [] && Upper(s) !in {"DONE", "FAIL"} && WaitSeconds(s).None? && PyautoguiMarked(Lower(s)) ==>
            ActionStringToStep(action) == Ok(PyautoguiCode(s)))
      && (s != [] && Upper(s) !in {"DONE", "FAIL"} && WaitSeconds(s).None? && !PyautoguiMarked(Lower(s)) ==>
            ActionStringToStep(action) == Ok(Execute(s, true)))
  {
  }

  /** Digits with one point between them match the WAIT pattern's number. */
  lemma DottedWaitNumber(ip: string, fp: string)
    requires AllDigits(ip) && |fp| > 0 && AllDigits(fp)
    ensures WaitNumber(ip + "." + fp)
  {
    var m := ip + "." + fp;
    assert m[|m| - 1] == fp[|fp| - 1];
    forall i | 0 <= i < |m|
      ensures IsDigit(m[i]) || (m[i] == '.' && forall j :: 0 <= j < |m| && j != i ==> m[j] != '.')
    {
      if i != |ip| {
        assert IsDigit(m[i]) by {
          if i < |ip| { assert m[i] == ip[i]; } else { assert m[i] == fp[i - |ip| - 1]; }
        }
      } else {
        forall j | 0 <= j < |m| && j != i ensures m[j] != '.' {
          if j < |ip| { assert m[j] == ip[j]; } else { assert m[j] == fp[j - |ip| - 1]; }
        }
      }
    }
  }

  /**
   * The `WAIT(n)` command that the wait branch emits for a duration that is
   * not negative is read back as a sleep of that duration.
   */
  lemma WaitRoundTrip(d: Decimal)
    requires d.mantissa >= 0 && Decimals.Positional(d)
    ensures var r := ActionStringToStep("WAIT(" + Decimals.Repr(d) + ")");
      r.Ok? && r.value.Sleep? && Decimals.Value(r.value.seconds) == Decimals.Value(d)
  {
    PositionalWaitReadsBack(d);
  }

  /** The positional rendering of a duration that is not negative matches the WAIT pattern and reads back. */
  lemma PositionalWaitReadsBack(d: Decimal)
    requires d.mantissa >= 0
    ensures var r := ActionStringToStep("WAIT(" + Decimals.Repr(d) + ")");
      r.Ok? && r.value.Sleep? && Decimals.Value(r.value.seconds) == Decimals.Value(d)
  {
    var m := Decimals.Repr(d);
    var ip, fp := Decimals.ReprParts(d);
    DottedWaitNumber(ip, fp);
    Decimals.ParseUnsignedOfRepr(d);
    WaitOfNumber(m, ParseUnsigned(m).value);
  }

  /** `WAIT(m)` for a number `m` of the pattern is a sleep of `m` seconds. */
  lemma WaitOfNumber(m: string, v: Decimal)
    requires WaitNumber(m) && ParseUnsigned(m) == Some(v)
    ensures ActionStringToStep("WAIT(" + m + ")") == Ok(Sleep(v))
  {
    var s := "WAIT(" + m + ")";
    WaitText(m);
    assert Upper(s) !in {"DONE", "FAIL"} by { assert |Upper(s)| > 4; }
    assert WaitSeconds(s) == Some(v);
  }

  /** The shape of `WAIT(m)`: nothing to strip, and `m` between the parentheses. */
  lemma WaitText(m: string)
    requires WaitNumber(m)
    ensures var s := "WAIT(" + m + ")";
      && Strip(s) == s && |s| >= 7 && Lower(s[..5]) == "wait(" && s[|s| - 1] == ')' && s[5..|s| - 1] == m
  {
    var s := "WAIT(" + m + ")";
    StripNoop(s);
    assert s[..5] == "WAIT(" && s[5..|s| - 1] == m;
    assert Lower("WAIT(") == "wait(";
  }

  /** As written, the wait branch turns a duration of -1 into `WAIT(-1.0)`. */
  lemma NegativeWaitEmitted(config: PyautoguiConfig)
    ensures WaitCommand(config, "-1") == Ok(["WAIT(-1.0)"])
  {
    ParseMinusOne();
    ReprMinusOne();
    WaitCommandOf(config, "-1", Decimal(-1, 0));
    WaitMinusOneText();
  }

  lemma WaitMinusOneText()
    ensures "WAIT(" + "-1.0" + ")" == "WAIT(-1.0)"
  {
    var s := "WAIT(" + "-1.0" + ")";
    assert s[5] == '-' && s[6] == '1' && s[7] == '.' && s[8] == '0' && s[9] == ')';
  }

  lemma WaitCommandOf(config: PyautoguiConfig, arg: string, d: Decimal)
    requires arg != [] && ParseFloat(arg) == Some(d)
    ensures WaitCommand(config, arg) == Ok(["WAIT(" + Decimals.Repr(d) + ")"])
  {
  }

  lemma ParseMinusOne()
    ensures ParseFloat("-1") == Some(Decimal(-1, 0))
  {
    StripNoop("-1");
    assert "-1"[1..] == "1";
    assert IndexWhere("1", c => c == '.') == 1;
    assert DigitsValue("1") == 1 by { assert "1"[..0] == []; }
  }

  lemma ReprMinusOne()
    ensures Decimals.Repr(Decimal(-1, 0)) == "-1.0"
  {
    assert Decimals.Normalize(Decimal(-1, 0)) == Decimal(-1, 0);
    assert Quotient(1, 1) == 1;
    assert NatToString(1) == "1";
  }

  /**
   * The wait branch as evidently intended: a negative duration is refused
   * like a malformed one instead of becoming a command no runtime reads as
   * a wait.
   */
  function CheckedWaitCommand(config: PyautoguiConfig, arg: string): (r: Result<seq<string>>)
    requires config.waitDuration.mantissa >= 0
    ensures r.Ok? <==> WaitCommand(config, arg).Ok? && (arg == [] || ParseFloat(arg).value.mantissa >= 0)
    ensures r.Ok? ==> r == WaitCommand(config, arg)
    ensures r.Err? ==> r.error.ValueError?
  {
    if arg != [] && ParseFloat(arg).Some? && ParseFloat(arg).value.mantissa < 0 then
      Err(ValueError("Invalid wait duration: '" + arg + "'. Expected a non-negative number of seconds"))
    else WaitCommand(config, arg)
  }

  /** Every command the checked wait branch emits reads back as a sleep of the duration asked for. */
  lemma CheckedWaitSleeps(config: PyautoguiConfig, arg: string)
    requires config.waitDuration.mantissa >= 0 && CheckedWaitCommand(config, arg).Ok?
    requires Decimals.Positional(if arg == [] then config.waitDuration else ParseFloat(arg).value)
    ensures var cmds := CheckedWaitCommand(config, arg).value;
      var step := ActionStringToStep(cmds[0]);
      && |cmds| == 1 && step.Ok? && step.value.Sleep?
      && Decimals.Value(step.value.seconds) == Decimals.Value(if arg == [] then config.waitDuration else ParseFloat(arg).value)
  {
    var d := if arg == [] then config.waitDuration else ParseFloat(arg).value;
    WaitRoundTrip(d);
  }

  /** A negative wait duration gives `WAIT(-1.0)`, which does not match the pattern and runs as a shell command. */
  lemma NegativeWaitIsShellCommand()
    ensures ActionStringToStep("WAIT(-1.0)") == Ok(Execute("WAIT(-1.0)", true))
  {
    var s := "WAIT(-1.0)";
    StripNoop(s);
    assert !WaitNumber(s[5..|s| - 1]) by { assert s[5] == '-'; }
    LowerWaitMinusOne();
  }

  lemma LowerWaitMinusOne()
    ensures var lower := Lower("WAIT(-1.0)");
      !Contains(lower, "pyautogui") && !Contains(lower, "pynputcontroller") && !Contains(lower, "_smart_paste")
  {
    var lower := Lower("WAIT(-1.0)");
    assert lower == "wait(-1.0)";
    assert 'p' !in lower && '_' !in lower;
    LacksChar(lower, "pyautogui", 0);
    LacksChar(lower, "pynputcontroller", 0);
    LacksChar(lower, "_smart_paste", 0);
  }

  /** Every `pyautogui.` call the converter emits is run as pyautogui code, unchanged. */
  lemma PyautoguiCallIsCode(body: string)
    requires |body| > 0 && !IsSpace(body[|body| - 1])
    ensures ActionStringToStep("pyautogui." + body) == Ok(PyautoguiCode("pyautogui." + body))
  {
    var s := "pyautogui." + body;
    StripNoop(s);
    assert s[..5] == "pyaut";
    assert Lower(s[..5]) != "wait(" by { assert Lower(s[..5])[0] == 'p'; }
    assert |Upper(s)| > 4;
    var lower := Lower(s);
    assert lower[..9] == "pyautogui";
    ContainsAt(lower, "pyautogui", 0);
  }
}
