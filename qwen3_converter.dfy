/**
 * `Qwen3ActionConverter`: Qwen3-VL computer-use actions, whose points are
 * in a 0-999 space, to pyautogui command strings. Unlike the other
 * dialects the cursor is always known: it starts at the sandbox centre,
 * and an action without a point acts where the cursor is.
 */
module Qwen3Converter {
  import opened Wrappers
  import opened Text
  import opened Decimals
  import opened ConverterBase
  import PyautoguiConverter

  const Qwen3CoordSize := 999

  /**
   * `Qwen3Action`: only the type is required. `coordinate` is documented
   * as a pair in [0, 999]; the record enforces neither, and fewer than two
   * numbers count as no point. `keys` is a list of key names.
   */
  datatype Qwen3Action = Qwen3Action(
    actionType: string,
    coordinate: Option<seq<int>>,
    text: Option<string>,
    keys: Option<seq<string>>,
    pixels: Option<int>,
    time: Option<Decimal>,
    status: Option<string>)

  /** An action of the given type with every other field missing. */
  function Bare(actionType: string): Qwen3Action
  {
    Qwen3Action(actionType, None, None, None, None, None, None)
  }

  /** The cursor: a sandbox point, always set. */
  type Pos = (int, int)

  /** What converting one action yields, and the cursor afterwards. */
  type Outcome = (Result<seq<string>>, Pos)

  /** The cursor of a new converter: the sandbox centre, by floor division. */
  function Center(config: ConverterConfig): (p: Pos)
    ensures p == LastOrCenter(config, None, None)
  {
    (config.sandboxWidth / 2, config.sandboxHeight / 2)
  }

  /** A point on the sandbox. */
  predicate OnSandbox(config: ConverterConfig, p: Pos)
  {
    0 <= p.0 < config.sandboxWidth && 0 <= p.1 < config.sandboxHeight
  }

  /** `scale_coordinate` from the 0-999 space onto the sandbox. */
  function Scaled(config: ConverterConfig, x: int, y: int): (p: Pos)
    requires ValidConfig(config)
    ensures OnSandbox(config, p)
  {
    ScaleCoordinate(config, Qwen3CoordSize, Qwen3CoordSize, x, y)
  }

  /** The action carries a point: a coordinate of at least two numbers. */
  predicate HasPoint(a: Qwen3Action)
  {
    a.coordinate.Some? && |a.coordinate.value| >= 2
  }

  /** The action's point, its first two numbers scaled. */
  function Point(config: ConverterConfig, a: Qwen3Action): (p: Pos)
    requires ValidConfig(config) && HasPoint(a)
    ensures OnSandbox(config, p)
  {
    Scaled(config, a.coordinate.value[0], a.coordinate.value[1])
  }

  /**
   * `_get_coords_from_action`: the action's point when it has one, else the
   * cursor. Either way the result is the cursor afterwards.
   */
  function CoordsFromAction(config: ConverterConfig, cur: Pos, a: Qwen3Action): (p: Pos)
    requires ValidConfig(config)
    ensures HasPoint(a) ==> p == Point(config, a)
    ensures !HasPoint(a) ==> p == cur
    ensures OnSandbox(config, cur) ==> OnSandbox(config, p)
  {
    if HasPoint(a) then Point(config, a) else cur
  }

  /** The actions that act at a point: a move, the five clicks and the two scrolls. */
  predicate IsPointing(t: string)
  {
    t == "mouse_move" || IsClickName(t) || t == "scroll" || t == "hscroll"
  }

  /**
   * The branches that act at `_get_coords_from_action`'s point: a move, a
   * click of the named kind, or a move and a scroll whose sign follows the
   * sign of `pixels`, a missing count being zero.
   */
  function AtPoint(config: ConverterConfig, p: Pos, a: Qwen3Action, t: string): (cmds: seq<string>)
    requires IsPointing(t)
    ensures t == "mouse_move" ==> cmds == [MoveTo(p.0, p.1)]
    ensures IsClickName(t) ==> cmds == [ClickAt(t, p.0, p.1)]
    ensures t in {"scroll", "hscroll"} ==> (|cmds| == 2 && cmds[0] == MoveTo(p.0, p.1)
      && cmds[1] == ScrollBy(if a.pixels.None? || a.pixels.value >= 0 then config.scrollAmount else -config.scrollAmount))
  {
    if t == "mouse_move" then [MoveTo(p.0, p.1)]
    else if IsClickName(t) then [ClickAt(t, p.0, p.1)]
    else
      var pixels := if a.pixels.Some? then a.pixels.value else 0;
      [MoveTo(p.0, p.1), ScrollBy(if pixels >= 0 then config.scrollAmount else -config.scrollAmount)]
  }

  /**
   * `left_click_drag`: the drag starts at the cursor and needs an end
   * point, which becomes the cursor.
   */
  function Drag(config: ConverterConfig, cur: Pos, a: Qwen3Action): (r: Outcome)
    requires ValidConfig(config)
    ensures r.0.Ok? <==> HasPoint(a)
    ensures r.0.Err? ==> r.0.error.ValueError? && r.1 == cur
    ensures r.0.Ok? ==> var e := Point(config, a);
      r == (Ok([MoveTo(cur.0, cur.1), DragTo(e.0, e.1, config.dragDuration)]), e)
  {
    if !HasPoint(a) then (Err(ValueError("coordinate (end position) is required for left_click_drag")), cur)
    else
      var e := Point(config, a);
      (Ok([MoveTo(cur.0, cur.1), DragTo(e.0, e.1, config.dragDuration)]), e)
  }

  /** `type`: the text is required and is typed inside an escaped single-quoted literal. */
  function TypeText(a: Qwen3Action): (r: Result<seq<string>>)
    ensures r.Ok? <==> a.text.Some?
    ensures r.Ok? ==> r.value == [TypeQuoted(QuoteEscaped(a.text.value))]
    ensures r.Err? ==> r.error.ValueError?
  {
    match a.text
    case None => Err(ValueError("text is required for type action"))
    case Some(text) => Ok([TypeQuoted(QuoteEscaped(text))])
  }

  /** The keys a `key` action presses: every name normalised, the empty results dropped. */
  function PressedKeys(keys: seq<string>): (ks: seq<string>)
    ensures |ks| <= |keys|
    ensures forall k :: k in ks ==> k != []
  {
    if keys == [] then []
    else
      var k := PyautoguiConverter.NormalizeKey(keys[0]);
      (if k == [] then [] else [k]) + PressedKeys(keys[1..])
  }

  /** Python's `repr` of a list of strings. */
  function ListRepr(keys: seq<string>): string
  {
    "[" + Join(PyautoguiConverter.ReprAll(keys), ", ") + "]"
  }

  /**
   * `key`: a non-empty keys list is required; the pressed keys make one
   * hotkey call, and a list whose names all normalise to nothing is a
   * ValueError.
   */
  function Key(config: ConverterConfig, a: Qwen3Action): (r: Result<seq<string>>)
    ensures r.Ok? <==> a.keys.Some? && PressedKeys(a.keys.value) != []
    ensures r.Ok? ==> r.value == [PyautoguiConverter.HotkeyCall(PressedKeys(a.keys.value), config.hotkeyInterval)]
    ensures r.Err? ==> r.error.ValueError?
  {
    if a.keys.None? || a.keys.value == [] then Err(ValueError("keys array is required for key action"))
    else
      var keys := PressedKeys(a.keys.value);
      if keys == [] then Err(ValueError("Invalid key combination: " + ListRepr(a.keys.value)))
      else Ok([PyautoguiConverter.HotkeyCall(keys, config.hotkeyInterval)])
  }

  /** `wait`: the action's seconds, else the configured duration. */
  function Wait(config: ConverterConfig, a: Qwen3Action): string
  {
    "WAIT(" + Decimals.Repr(if a.time.Some? then a.time.value else config.waitDuration) + ")"
  }

  /**
   * `_convert_single_action`. A failure leaves the cursor alone; the cursor
   * only ever becomes the action's scaled point; it stays on the sandbox;
   * `terminate` yields DONE whatever its status, and `answer` and unknown
   * types yield nothing.
   */
  function Convert(config: ConverterConfig, cur: Pos, a: Qwen3Action): (r: Outcome)
    requires ValidConfig(config)
    ensures r.0.Err? ==> r.1 == cur && r.0.error.ValueError?
    ensures r.1 == cur || (HasPoint(a) && r.1 == Point(config, a))
    ensures OnSandbox(config, cur) ==> OnSandbox(config, r.1)
    ensures Lower(a.actionType) == "terminate" ==> r == (Ok(["DONE"]), cur)
    ensures !IsPointing(Lower(a.actionType)) && Lower(a.actionType) !in {"left_click_drag", "type", "key", "wait", "terminate"}
      ==> r == (Ok([]), cur)
  {
    var t := Lower(a.actionType);
    if IsPointing(t) then
      var p := CoordsFromAction(config, cur, a);
      (Ok(AtPoint(config, p, a, t)), p)
    else if t == "left_click_drag" then Drag(config, cur, a)
    else if t == "type" then (TypeText(a), cur)
    else if t == "key" then (Key(config, a), cur)
    else if t == "wait" then (Ok([Wait(config, a)]), cur)
    else if t == "terminate" then (Ok(["DONE"]), cur)
    else (Ok([]), cur)
  }

  /** The conversion the batch loop applies. */
  function Convertor(config: ConverterConfig): (convert: ConverterBase.Conversion<Pos, Qwen3Action>)
    requires ValidConfig(config)
    ensures Total(convert)
    ensures forall cur, a :: convert(cur, a) == Convert(config, cur, a)
  {
    (cur: Pos, a: Qwen3Action) requires ValidConfig(config) => Convert(config, cur, a)
  }

  // ---------------------------------------------------------------------
  // properties
  // ---------------------------------------------------------------------

  /** The centre a converter starts at lies on the sandbox. */
  lemma CenterOnSandbox(config: ConverterConfig)
    requires ValidConfig(config)
    ensures OnSandbox(config, Center(config))
  {
    CenterOnScreen(config);
  }

  /** A pointing action without a point acts at the cursor and leaves it where it is. */
  lemma NoPointActsAtCursor(config: ConverterConfig, cur: Pos, a: Qwen3Action)
    requires ValidConfig(config) && IsPointing(Lower(a.actionType)) && !HasPoint(a)
    ensures Convert(config, cur, a) == (Ok(AtPoint(config, cur, a, Lower(a.actionType))), cur)
  {
  }

  /** A drag starts where the previous drag ended. */
  lemma DragsChain(config: ConverterConfig, cur: Pos, a: Qwen3Action, b: Qwen3Action)
    requires ValidConfig(config) && Lower(a.actionType) == "left_click_drag" && Lower(b.actionType) == "left_click_drag"
    requires HasPoint(a) && HasPoint(b)
    ensures var (r1, c1) := Convert(config, cur, a);
      var (r2, _) := Convert(config, c1, b);
      r1.Ok? && r2.Ok? && r2.value[0] == MoveTo(Point(config, a).0, Point(config, a).1)
  {
    var (r1, c1) := Convert(config, cur, a);
    assert (r1, c1) == Drag(config, cur, a);
    assert c1 == Point(config, a);
    assert Convert(config, c1, b) == Drag(config, c1, b);
  }

  /** `hscroll` is emitted as the same vertical scroll as `scroll`. */
  lemma HorizontalScrollIsVertical(config: ConverterConfig, cur: Pos, a: Qwen3Action)
    requires ValidConfig(config) && Lower(a.actionType) == "hscroll"
    ensures Convert(config, cur, a) == Convert(config, cur, a.(actionType := "scroll"))
  {
    assert Lower("scroll") == "scroll";
  }

  /** Normalising a key gives nothing exactly when the key is blank. */
  lemma NormalizeKeyEmpty(k: string)
    ensures PyautoguiConverter.NormalizeKey(k) == [] <==> IsBlank(k)
  {
    var s := Lower(Strip(k));
    if IsBlank(k) {
      assert s == [];
      assert PyautoguiConverter.KeyAlias(s).None?;
    } else if PyautoguiConverter.KeyAlias(s).Some? {
      assert |PyautoguiConverter.KeyAlias(s).value| > 0;
    }
  }

  /**
   * The keys of a Qwen3 `key` action are those of a Claude or Gemini
   * combination: blank names dropped, the rest normalised.
   */
  lemma {:induction false} PressedKeysAreNonBlank(keys: seq<string>)
    ensures PressedKeys(keys) == NormalizedNonBlank(keys)
  {
    if keys != [] {
      NormalizeKeyEmpty(keys[0]);
      PressedKeysAreNonBlank(keys[1..]);
    }
  }

  /**
   * Every command a conversion emits runs as pyautogui code, except
   * `wait`'s, a sleep of the requested seconds when they are not negative,
   * and `terminate`'s DONE, a sleep of no time.
   */
  lemma CommandsRun(config: ConverterConfig, cur: Pos, a: Qwen3Action, cmd: string)
    requires ValidConfig(config)
    requires Convert(config, cur, a).0.Ok? && cmd in Convert(config, cur, a).0.value
    ensures Lower(a.actionType) !in {"wait", "terminate"} ==> ActionStringToStep(cmd) == PyautoguiConverter.PyautoguiCode(cmd)
    ensures Lower(a.actionType) == "terminate" ==> ActionStringToStep(cmd) == PyautoguiConverter.Sleep(FromInt(0))
    ensures Lower(a.actionType) == "wait" && a.time.Some? && a.time.value.mantissa >= 0 && Positional(a.time.value) ==>
      ActionStringToStep(cmd).Sleep? && Value(ActionStringToStep(cmd).seconds) == Value(a.time.value)
  {
    var t := Lower(a.actionType);
    if t == "terminate" {
      assert cmd == "DONE";
      DoneSleepsZero();
    } else if t == "wait" {
      if a.time.Some? && a.time.value.mantissa >= 0 && Positional(a.time.value) {
        WaitRuns(config, cur, a, cmd);
      }
    } else {
      CallRuns(config, cur, a, t, cmd);
    }
  }

  lemma WaitRuns(config: ConverterConfig, cur: Pos, a: Qwen3Action, cmd: string)
    requires ValidConfig(config) && Lower(a.actionType) == "wait"
    requires Convert(config, cur, a).0.Ok? && cmd in Convert(config, cur, a).0.value
    requires a.time.Some? && a.time.value.mantissa >= 0 && Positional(a.time.value)
    ensures ActionStringToStep(cmd).Sleep? && Value(ActionStringToStep(cmd).seconds) == Value(a.time.value)
  {
    assert cmd == Wait(config, a);
    WaitIsSleep(a.time.value);
  }

  lemma CallRuns(config: ConverterConfig, cur: Pos, a: Qwen3Action, t: string, cmd: string)
    requires ValidConfig(config) && t == Lower(a.actionType) && t !in {"wait", "terminate"}
    requires Convert(config, cur, a).0.Ok? && cmd in Convert(config, cur, a).0.value
    ensures ActionStringToStep(cmd) == PyautoguiConverter.PyautoguiCode(cmd)
  {
    CommandShape(config, cur, a, t, cmd);
    CallIsCode(cmd);
  }


  /** Every command but `wait`'s and `terminate`'s has the call shape. */
  lemma CommandShape(config: ConverterConfig, cur: Pos, a: Qwen3Action, t: string, cmd: string)
    requires ValidConfig(config) && t == Lower(a.actionType) && t !in {"wait", "terminate"}
    requires Convert(config, cur, a).0.Ok? && cmd in Convert(config, cur, a).0.value
    ensures CallForm(cmd)
  {
    if IsPointing(t) {
      PointShape(config, CoordsFromAction(config, cur, a), a, t, cmd);
    } else if t == "left_click_drag" {
      var e := Point(config, a);
      MoveToForm(cur.0, cur.1);
      DragToForm(e.0, e.1, config.dragDuration);
    } else if t == "type" {
      TypeQuotedForm(QuoteEscaped(a.text.value));
    } else {
      assert t == "key";
      HotkeyCallForm(PressedKeys(a.keys.value), config.hotkeyInterval);
    }
  }

  lemma PointShape(config: ConverterConfig, p: Pos, a: Qwen3Action, t: string, cmd: string)
    requires IsPointing(t) && cmd in AtPoint(config, p, a, t)
    ensures CallForm(cmd)
  {
    MoveToForm(p.0, p.1);
    if IsClickName(t) {
      ClickForm(t, p.0, p.1);
    } else if t != "mouse_move" {
      var pixels := if a.pixels.Some? then a.pixels.value else 0;
      ScrollByForm(if pixels >= 0 then config.scrollAmount else -config.scrollAmount);
    }
  }

  // ---------------------------------------------------------------------
  // the converter object
  // ---------------------------------------------------------------------

  class Qwen3ActionConverter {
    const config: ConverterConfig
    var lastX: int
    var lastY: int

    /** A new converter's cursor is the sandbox centre. */
    constructor (config: ConverterConfig)
      requires ValidConfig(config)
      ensures this.config == config && Position() == Center(config)
    {
      this.config := config;
      lastX := config.sandboxWidth / 2;
      lastY := config.sandboxHeight / 2;
    }

    function Position(): Pos
      reads this
    {
      (lastX, lastY)
    }

    /** `_get_coords_from_action`, moving the cursor to the action's point when it has one. */
    method GetCoordsFromAction(a: Qwen3Action) returns (x: int, y: int)
      requires ValidConfig(config)
      modifies this
      ensures (x, y) == CoordsFromAction(config, old(Position()), a)
      ensures Position() == (x, y)
    {
      if a.coordinate.Some? && |a.coordinate.value| >= 2 {
        var p := Scaled(config, a.coordinate.value[0], a.coordinate.value[1]);
        lastX, lastY := p.0, p.1;
        return p.0, p.1;
      }
      return lastX, lastY;
    }

    /** `_convert_single_action`, updating the cursor in place. */
    method ConvertSingleAction(a: Qwen3Action) returns (r: Result<seq<string>>)
      requires ValidConfig(config)
      modifies this
      ensures (r, Position()) == Convert(config, old(Position()), a)
    {
      var t := Lower(a.actionType);
      if IsPointing(t) {
        var x, y := GetCoordsFromAction(a);
        r := Ok(AtPoint(config, (x, y), a, t));
      } else if t == "left_click_drag" {
        var sx, sy := lastX, lastY;
        if !HasPoint(a) {
          return Err(ValueError("coordinate (end position) is required for left_click_drag"));
        }
        var e := Scaled(config, a.coordinate.value[0], a.coordinate.value[1]);
        lastX, lastY := e.0, e.1;
        r := Ok([MoveTo(sx, sy), DragTo(e.0, e.1, config.dragDuration)]);
      } else if t == "type" {
        r := TypeText(a);
      } else if t == "key" {
        r := Key(config, a);
      } else if t == "wait" {
        r := Ok([Wait(config, a)]);
      } else if t == "terminate" {
        r := Ok(["DONE"]);
      } else {
        r := Ok([]);
      }
    }

    /** `update_cursor`: the cursor after the caller has run the commands. */
    method UpdateCursor(x: int, y: int)
      modifies this
      ensures Position() == (x, y)
    {
      lastX, lastY := x, y;
    }

    /** `get_cursor` */
    method GetCursor() returns (x: int, y: int)
      ensures (x, y) == Position()
    {
      return lastX, lastY;
    }

    /** `__call__`: every action converted in turn, failures collected, no-ops skipped. */
    method Call(actions: seq<Qwen3Action>) returns (r: Result<seq<string>>)
      requires ValidConfig(config)
      modifies this
      ensures (r, Position()) == ConverterBase.Call(Convertor(config), old(Position()), actions)
    {
      ghost var convert := Convertor(config);
      ghost var cur0 := Position();
      if actions == [] {
        return Ok([]);
      }
      var converted: seq<string> := [];
      var failed: seq<(Qwen3Action, string)> := [];
      var skipped: seq<Qwen3Action> := [];
      for i := 0 to |actions|
        invariant Run(convert, cur0, actions[..i]) == Tally(converted, failed, skipped, Position())
      {
        assert actions[..i + 1][..i] == actions[..i];
        var a := actions[i];
        var res := ConvertSingleAction(a);
        match res
        case Err(e) =>
          failed := failed + [(a, e.message)];
        case Ok(cmds) =>
          if cmds == [] {
            skipped := skipped + [a];
          } else {
            converted := converted + cmds;
          }
      }
      assert actions[..|actions|] == actions;
      if converted == [] && failed != [] {
        return Err(RuntimeError("All action conversions failed (" + NatToString(|failed|) + "/" + NatToString(|actions|) + ")"));
      }
      r := Ok(converted);
    }
  }

  /** A cursor set by `update_cursor` is what `get_cursor` returns. */
  method CursorRoundTrip(c: Qwen3ActionConverter, x: int, y: int) returns (gx: int, gy: int)
    modifies c
    ensures (gx, gy) == (x, y)
  {
    c.UpdateCursor(x, y);
    gx, gy := c.GetCursor();
  }
}
