/**
 * `BaseActionConverter`: what the dialect converters share. A converter
 * holds a configuration, a coordinate scaler from its dialect's space onto
 * the sandbox, and the last cursor position. Its batch loop converts every
 * action, keeps going past a failing one, records an action that yields
 * nothing as skipped, and raises only when nothing was converted and
 * something failed.
 */
module ConverterBase {
  import opened Wrappers
  import opened Text
  import opened Decimals
  import opened Scaling
  import opened CapsLock
  import PyautoguiConverter

  /** `ConverterConfig`. */
  datatype ConverterConfig = ConverterConfig(
    sandboxWidth: int, sandboxHeight: int,
    dragDuration: Decimal, scrollAmount: int, waitDuration: Decimal,
    hotkeyInterval: Decimal, capslockMode: CapsMode, strictCoordinateValidation: bool)

  /** A sandbox large enough for the scaler's clamp and corner rule. */
  predicate ValidConfig(c: ConverterConfig)
  {
    c.sandboxWidth >= 3 && c.sandboxHeight >= 3
  }

  /** The configuration used when none is given. */
  const DefaultConfig: ConverterConfig :=
    ConverterConfig(1920, 1080, Decimal(5, 1), 2, Decimal(10, 1), Decimal(1, 1), Session, false)

  /** The defaults: a 1920x1080 sandbox, 0.5 s drags, scrolls of 2, 1 s waits, 0.1 s key interval, session caps lock, lenient coordinates. */
  lemma DefaultConfigValues()
    ensures ValidConfig(DefaultConfig)
    ensures DefaultConfig.sandboxWidth == 1920 && DefaultConfig.sandboxHeight == 1080
    ensures Value(DefaultConfig.dragDuration) == 0.5 && Value(DefaultConfig.waitDuration) == 1.0
    ensures Value(DefaultConfig.hotkeyInterval) == 0.1
    ensures DefaultConfig.scrollAmount == 2
    ensures DefaultConfig.capslockMode == Session && !DefaultConfig.strictCoordinateValidation
    ensures Repr(DefaultConfig.dragDuration) == "0.5" && Repr(DefaultConfig.waitDuration) == "1.0"
  {
    assert Normalize(Decimal(10, 1)) == Decimal(1, 0);
    assert Quotient(5, 10) == 0 && Remainder(5, 10) == 5;
    assert Quotient(1, 1) == 1 && Remainder(1, 1) == 0;
  }

  // ---------------------------------------------------------------------
  // coordinates
  // ---------------------------------------------------------------------

  /** The converter's scaler: the dialect's space onto the sandbox, at the origin. */
  function DialectScaler(config: ConverterConfig, sourceWidth: int, sourceHeight: int): (s: Scaler)
    requires ValidConfig(config) && sourceWidth > 0 && sourceHeight > 0
    ensures s.Valid()
  {
    Scaler(sourceWidth, sourceHeight, config.sandboxWidth, config.sandboxHeight, 0, 0)
  }

  /** `scale_coordinate`: a dialect point onto the sandbox, rounded and clamped. */
  function ScaleCoordinate(config: ConverterConfig, sourceWidth: int, sourceHeight: int, x: int, y: int): (p: (int, int))
    requires ValidConfig(config) && sourceWidth > 0 && sourceHeight > 0
    ensures 0 <= p.0 < config.sandboxWidth && 0 <= p.1 < config.sandboxHeight
    ensures p.0 == ScaleAxis(x as real, sourceWidth, config.sandboxWidth, false)
    ensures p.1 == ScaleAxis(y as real, sourceHeight, config.sandboxHeight, false)
  {
    DialectScaler(config, sourceWidth, sourceHeight).Scale(x as real, y as real, false)
  }

  /** `_get_last_or_center`: the last position when both coordinates are known, else the sandbox centre. */
  function LastOrCenter(config: ConverterConfig, lastX: Option<int>, lastY: Option<int>): (p: (int, int))
    ensures lastX.Some? && lastY.Some? ==> p == (lastX.value, lastY.value)
    ensures !(lastX.Some? && lastY.Some?) ==> p == (config.sandboxWidth / 2, config.sandboxHeight / 2)
  {
    if lastX.Some? && lastY.Some? then (lastX.value, lastY.value)
    else (config.sandboxWidth / 2, config.sandboxHeight / 2)
  }

  /** Without a last position the fallback is a pixel of the sandbox, in its middle. */
  lemma CenterOnScreen(config: ConverterConfig)
    requires ValidConfig(config)
    ensures var (x, y) := LastOrCenter(config, None, None);
      0 < x < config.sandboxWidth - 1 && 0 < y < config.sandboxHeight - 1
      && config.sandboxWidth - 1 <= 2 * x <= config.sandboxWidth
      && config.sandboxHeight - 1 <= 2 * y <= config.sandboxHeight
  {
  }

  /** The last position a converter moved to, each coordinate unset at first. */
  datatype Cursor = Cursor(lastX: Option<int>, lastY: Option<int>)

  /** A cursor set to a point. */
  function At(p: (int, int)): Cursor
  {
    Cursor(Some(p.0), Some(p.1))
  }

  /** Every coordinate that is set lies on the sandbox. */
  predicate OnScreen(config: ConverterConfig, cur: Cursor)
  {
    && (cur.lastX.Some? ==> 0 <= cur.lastX.value < config.sandboxWidth)
    && (cur.lastY.Some? ==> 0 <= cur.lastY.value < config.sandboxHeight)
  }

  /** The position `_get_last_or_center` gives for an on-screen cursor is on the sandbox. */
  lemma LastOrCenterOnScreen(config: ConverterConfig, cur: Cursor)
    requires ValidConfig(config) && OnScreen(config, cur)
    ensures var p := LastOrCenter(config, cur.lastX, cur.lastY);
      0 <= p.0 < config.sandboxWidth && 0 <= p.1 < config.sandboxHeight
  {
  }

  // ---------------------------------------------------------------------
  // what the dialect converters write
  // ---------------------------------------------------------------------

  /** `pyautogui.<name>(<args>)` */
  function PyCall(name: string, args: string): string
  {
    "pyautogui." + name + "(" + args + ")"
  }

  function MoveTo(x: int, y: int): string
  {
    PyCall("moveTo", IntToString(x) + ", " + IntToString(y))
  }

  function DragTo(x: int, y: int, duration: Decimal): string
  {
    PyCall("dragTo", IntToString(x) + ", " + IntToString(y) + ", duration=" + Decimals.Repr(duration))
  }

  function ScrollBy(amount: int): string
  {
    PyCall("scroll", IntToString(amount))
  }

  /** `pyautogui.typewrite('...')` around an already escaped body. */
  function TypeQuoted(body: string): string
  {
    PyCall("typewrite", "'" + body + "'")
  }

  function Press(key: string): string
  {
    PyCall("press", "'" + key + "'")
  }

  /** The click names Claude and Qwen3 share. */
  predicate IsClickName(t: string)
  {
    t in {"left_click", "double_click", "triple_click", "right_click", "middle_click"}
  }

  /** The command of each click name at a point; a middle click is a click with `button='middle'`. */
  function ClickAt(t: string, x: int, y: int): (cmd: string)
    requires IsClickName(t)
  {
    var at := "x=" + IntToString(x) + ", y=" + IntToString(y);
    if t == "double_click" then PyCall("doubleClick", at)
    else if t == "triple_click" then PyCall("tripleClick", at)
    else if t == "right_click" then PyCall("rightClick", at)
    else if t == "middle_click" then PyCall("click", at + ", button='middle'")
    else PyCall("click", at)
  }

  /**
   * `text.replace("\\", "\\\\").replace("'", "\\'")`: backslashes are
   * doubled first, then quotes are escaped, so that the text can stand
   * between single quotes.
   */
  function QuoteEscaped(text: string): string
  {
    ReplaceChar(ReplaceChar(text, '\\', "\\\\"), '\'', "\\'")
  }

  /** The same escaping, character by character. */
  function EscapeChar(c: char): string
  {
    if c == '\\' then "\\\\" else if c == '\'' then "\\'" else [c]
  }

  function EscapeEach(text: string): string
  {
    if |text| == 0 then "" else EscapeChar(text[0]) + EscapeEach(text[1..])
  }

  /**
   * How Python reads the body of a single-quoted string literal, for the
   * two escapes the converters write: `\\` and `\'` stand for their
   * second character. None when the body cannot stand between the quotes:
   * a bare quote ends the literal early, a line break may not occur in
   * it, and a backslash before anything else is not one of those escapes
   * (a final one would escape the closing quote).
   */
  function ReadQuotedBody(s: string): Option<string>
    decreases |s|
  {
    if |s| == 0 then Some("")
    else if s[0] == '\'' || s[0] == '\n' then None
    else if s[0] == '\\' then
      if |s| >= 2 && (s[1] == '\\' || s[1] == '\'') then
        match ReadQuotedBody(s[2..])
        case Some(t) => Some([s[1]] + t)
        case None => None
      else None
    else
      match ReadQuotedBody(s[1..])
      case Some(t) => Some([s[0]] + t)
      case None => None
  }

  /** The two replacements are the character-by-character escape. */
  lemma {:induction false} QuoteEscapedEach(text: string)
    ensures QuoteEscaped(text) == EscapeEach(text)
  {
    if |text| > 0 {
      QuoteEscapedEach(text[1..]);
      var c := text[0];
      assert text == [c] + text[1..];
      var inner := ReplaceChar(text, '\\', "\\\\");
      assert inner == (if c == '\\' then "\\\\" else [c]) + ReplaceChar(text[1..], '\\', "\\\\");
      ReplaceCharAppend(if c == '\\' then "\\\\" else [c], ReplaceChar(text[1..], '\\', "\\\\"), '\'', "\\'");
      if c == '\\' {
        assert ReplaceChar("\\\\", '\'', "\\'") == "\\\\";
      } else {
        assert ReplaceChar([c], '\'', "\\'") == EscapeChar(c);
      }
    }
  }

  /** The escaped text reads back as the text, unless the text holds a line break. */
  lemma {:induction false} ReadEscapeEach(text: string)
    ensures ReadQuotedBody(EscapeEach(text)) == if '\n' in text then None else Some(text)
  {
    if |text| > 0 {
      ReadEscapeEach(text[1..]);
      var c := text[0];
      var rest := EscapeEach(text[1..]);
      assert EscapeEach(text) == EscapeChar(c) + rest;
      assert '\n' in text <==> c == '\n' || '\n' in text[1..] by {
        assert text == [c] + text[1..];
      }
      if c == '\\' || c == '\'' {
        assert (EscapeChar(c) + rest)[2..] == rest;
      } else {
        assert (EscapeChar(c) + rest)[1..] == rest;
      }
    }
  }

  /**
   * The `type` commands round-trip: Python reads the escaped body back as
   * the very text, for every text without a line break; a text with one
   * gives a command Python cannot read.
   */
  lemma QuoteEscapedRoundTrip(text: string)
    ensures '\n' !in text ==> ReadQuotedBody(QuoteEscaped(text)) == Some(text)
    ensures '\n' in text ==> ReadQuotedBody(QuoteEscaped(text)).None?
  {
    QuoteEscapedEach(text);
    ReadEscapeEach(text);
  }

  /**
   * Escaping only the quotes (Gemini's `navigate`) round-trips as well when
   * the text holds no backslash and no line break.
   */
  lemma {:induction false} QuoteOnlyRoundTrip(text: string)
    requires '\\' !in text && '\n' !in text
    ensures ReadQuotedBody(ReplaceChar(text, '\'', "\\'")) == Some(text)
  {
    if |text| > 0 {
      var c := text[0];
      assert text == [c] + text[1..];
      QuoteOnlyRoundTrip(text[1..]);
      var rest := ReplaceChar(text[1..], '\'', "\\'");
      if c == '\'' {
        assert ("\\'" + rest)[2..] == rest;
      } else {
        assert ([c] + rest)[1..] == rest;
      }
    }
  }

  /** `[normalize_key(k) for k in parts if k.strip()]` */
  function NormalizedNonBlank(parts: seq<string>): (keys: seq<string>)
    ensures |keys| <= |parts|
  {
    if |parts| == 0 then []
    else (if IsBlank(parts[0]) then [] else [PyautoguiConverter.NormalizeKey(parts[0])]) + NormalizedNonBlank(parts[1..])
  }

  /**
   * `_parse_claude_hotkey` and `_parse_gemini_hotkey`: `-` is read as `+`,
   * the text is split on `+`, blank pieces are dropped and each key is
   * normalised.
   */
  function SeparatedKeys(text: string): seq<string>
  {
    NormalizedNonBlank(Split(ReplaceChar(text, '-', "+"), '+'))
  }

  /** A key as it comes out of `SeparatedKeys`: non-empty, free of both separators, already normalised. */
  predicate KeyName(k: string)
  {
    k != [] && '+' !in k && '-' !in k && PyautoguiConverter.NormalizeKey(k) == k
  }

  /** A non-blank piece free of both separators normalises to a key name. */
  lemma NormalizedKeyName(p: string)
    requires !IsBlank(p) && '+' !in p && '-' !in p
    ensures KeyName(PyautoguiConverter.NormalizeKey(p))
  {
    var k := Lower(Strip(p));
    PyautoguiConverter.NormalizeKeyIdempotent(p);
    if PyautoguiConverter.KeyAlias(k).Some? {
      PyautoguiConverter.CanonicalLowerWords();
      var c := PyautoguiConverter.KeyAlias(k).value;
      assert LowerWord(c);
      assert c != [];
    } else {
      StripKeepsChars(p);
      assert forall i :: 0 <= i < |k| ==> k[i] == LowerChar(Strip(p)[i]);
      assert '+' !in k && '-' !in k;
    }
  }

  lemma {:induction false} NormalizedNonBlankNames(parts: seq<string>)
    requires forall j, i :: 0 <= j < |parts| && 0 <= i < |parts[j]| ==> parts[j][i] != '+' && parts[j][i] != '-'
    ensures forall j :: 0 <= j < |NormalizedNonBlank(parts)| ==> KeyName(NormalizedNonBlank(parts)[j])
  {
    if |parts| > 0 {
      NormalizedNonBlankNames(parts[1..]);
      if !IsBlank(parts[0]) {
        assert '+' !in parts[0] && '-' !in parts[0] by {
          forall i | 0 <= i < |parts[0]| ensures parts[0][i] != '+' && parts[0][i] != '-' { }
        }
        NormalizedKeyName(parts[0]);
      }
    }
  }

  /** Every separated key is a non-empty, normalised name holding neither separator. */
  lemma SeparatedKeysAreNames(text: string)
    ensures forall j :: 0 <= j < |SeparatedKeys(text)| ==> KeyName(SeparatedKeys(text)[j])
  {
    var t := ReplaceChar(text, '-', "+");
    SplitOnFree(t, {'+'});
    SplitOnKeeps(t, {'+'});
    NormalizedNonBlankNames(Split(t, '+'));
  }

  /** A non-blank name without separators is one key. */
  lemma SingleNameOneKey(name: string)
    requires !IsBlank(name) && '+' !in name && '-' !in name
    ensures SeparatedKeys(name) == [PyautoguiConverter.NormalizeKey(name)]
  {
    assert IndexIn(name, {'+'}) == |name|;
    assert Split(name, '+') == [name];
  }

  // ---------------------------------------------------------------------
  // the batch loop
  // ---------------------------------------------------------------------

  /** One action's conversion from the converter's state before it: the commands or the error, and the state after it. */
  type Conversion<!S, !T> = (S, T) --> (Result<seq<string>>, S)

  ghost predicate Total<S(!new), T(!new)>(convert: Conversion<S, T>)
  {
    forall s: S, a: T :: convert.requires(s, a)
  }

  /** The lists `__call__` builds, and the converter's state. */
  datatype Tally<S, T> = Tally(converted: seq<string>, failed: seq<(T, string)>, skipped: seq<T>, state: S)

  /** One iteration: a failure is recorded, an empty result is skipped, commands are appended. */
  function Advance<S(!new), T(!new)>(convert: Conversion<S, T>, t: Tally<S, T>, a: T): (u: Tally<S, T>)
    requires Total(convert)
    ensures u.state == convert(t.state, a).1
    ensures convert(t.state, a).0.Err? ==>
      u == t.(failed := t.failed + [(a, convert(t.state, a).0.error.message)], state := u.state)
    ensures convert(t.state, a).0 == Ok([]) ==> u == t.(skipped := t.skipped + [a], state := u.state)
    ensures convert(t.state, a).0.Ok? && convert(t.state, a).0.value != [] ==>
      u == t.(converted := t.converted + convert(t.state, a).0.value, state := u.state)
  {
    var (r, s) := convert(t.state, a);
    match r
    case Err(e) => Tally(t.converted, t.failed + [(a, e.message)], t.skipped, s)
    case Ok(cmds) =>
      if cmds == [] then Tally(t.converted, t.failed, t.skipped + [a], s)
      else Tally(t.converted + cmds, t.failed, t.skipped, s)
  }

  /** The lists and state after the given actions. */
  function Run<S(!new), T(!new)>(convert: Conversion<S, T>, s0: S, actions: seq<T>): Tally<S, T>
    requires Total(convert)
  {
    if |actions| == 0 then Tally([], [], [], s0)
    else Advance(convert, Run(convert, s0, actions[..|actions| - 1]), actions[|actions| - 1])
  }

  /**
   * `__call__`: an empty batch gives `[]`; a RuntimeError exactly when
   * nothing was converted and some action failed; otherwise every command
   * converted. The second component is the converter's state afterwards.
   */
  function Call<S(!new), T(!new)>(convert: Conversion<S, T>, s0: S, actions: seq<T>): (r: (Result<seq<string>>, S))
    requires Total(convert)
    ensures actions == [] ==> r == (Ok([]), s0)
    ensures r.0.Err? <==> actions != [] && Run(convert, s0, actions).converted == [] && Run(convert, s0, actions).failed != []
    ensures r.0.Err? ==> r.0.error.RuntimeError?
    ensures r.0.Ok? && actions != [] ==> r.0.value == Run(convert, s0, actions).converted
    ensures actions != [] ==> r.1 == Run(convert, s0, actions).state
  {
    if actions == [] then (Ok([]), s0)
    else
      var t := Run(convert, s0, actions);
      if t.converted == [] && t.failed != [] then
        (Err(RuntimeError("All action conversions failed (" + NatToString(|t.failed|) + "/" + NatToString(|actions|) + ")")), t.state)
      else (Ok(t.converted), t.state)
  }

  /**
   * Every action is accounted for at most once as failed or skipped; when
   * nothing was converted, every action was one of the two.
   */
  lemma {:induction false} Accounting<S(!new), T(!new)>(convert: Conversion<S, T>, s0: S, actions: seq<T>)
    requires Total(convert)
    ensures |Run(convert, s0, actions).failed| + |Run(convert, s0, actions).skipped| <= |actions|
    ensures Run(convert, s0, actions).converted == [] ==>
      |Run(convert, s0, actions).failed| + |Run(convert, s0, actions).skipped| == |actions|
  {
    if |actions| > 0 {
      var prefix := actions[..|actions| - 1];
      Accounting(convert, s0, prefix);
    }
  }

  /** A batch whose actions all convert to nothing returns `[]`, not an error. */
  lemma AllSkippedIsEmpty<S(!new), T(!new)>(convert: Conversion<S, T>, s0: S, actions: seq<T>)
    requires Total(convert)
    requires |Run(convert, s0, actions).skipped| == |actions|
    ensures Call(convert, s0, actions).0 == Ok([])
  {
    Accounting(convert, s0, actions);
    if actions != [] && Run(convert, s0, actions).converted != [] {
      ConvertedNeedsAction(convert, s0, actions);
    }
  }

  /** Actions that each convert to nothing, leaving the state alone, are all skipped. */
  lemma {:induction false} SkippingRun<S(!new), T(!new)>(convert: Conversion<S, T>, s0: S, actions: seq<T>)
    requires Total(convert)
    requires forall i :: 0 <= i < |actions| ==> convert(s0, actions[i]) == (Ok([]), s0)
    ensures Run(convert, s0, actions) == Tally([], [], actions, s0)
  {
    if |actions| > 0 {
      var prefix := actions[..|actions| - 1];
      SkippingRun(convert, s0, prefix);
      assert prefix + [actions[|actions| - 1]] == actions;
    }
  }

  /** Converted commands come from an action that was neither skipped nor failed. */
  lemma {:induction false} ConvertedNeedsAction<S(!new), T(!new)>(convert: Conversion<S, T>, s0: S, actions: seq<T>)
    requires Total(convert)
    requires Run(convert, s0, actions).converted != []
    ensures |Run(convert, s0, actions).failed| + |Run(convert, s0, actions).skipped| < |actions|
  {
    var prefix := actions[..|actions| - 1];
    Accounting(convert, s0, prefix);
    if Run(convert, s0, prefix).converted != [] {
      ConvertedNeedsAction(convert, s0, prefix);
    }
  }

  /** A failing action does not stop the loop: the next action's commands are still appended. */
  lemma FailureThenConverted<S(!new), T(!new)>(convert: Conversion<S, T>, s0: S, actions: seq<T>, bad: T, good: T)
    requires Total(convert)
    requires convert(Run(convert, s0, actions).state, bad).0.Err?
    requires var s1 := convert(Run(convert, s0, actions).state, bad).1;
      convert(s1, good).0.Ok? && convert(s1, good).0.value != []
    ensures var s1 := convert(Run(convert, s0, actions).state, bad).1;
      Call(convert, s0, actions + [bad, good]).0 == Ok(Run(convert, s0, actions).converted + convert(s1, good).0.value)
  {
    var all := actions + [bad, good];
    var t0 := Run(convert, s0, actions);
    assert all[..|all| - 1] == actions + [bad];
    assert (actions + [bad])[..|actions|] == actions;
    var t1 := Run(convert, s0, actions + [bad]);
    assert t1 == Advance(convert, t0, bad);
    assert t1.converted == t0.converted;
    var t2 := Run(convert, s0, all);
    assert t2 == Advance(convert, t1, good);
    assert t2.converted == t0.converted + convert(t1.state, good).0.value;
  }

  // ---------------------------------------------------------------------
  // command strings to runtime steps
  // ---------------------------------------------------------------------

  /**
   * The base `action_string_to_step`: DONE and FAIL sleep 0 seconds;
   * `WAIT(n)` sleeps; text naming pyautogui is pyautogui code; everything
   * else, the empty string included, is a shell command.
   */
  function ActionStringToStep(action: string): (r: PyautoguiConverter.RuntimeStep)
    ensures Upper(Strip(action)) in {"DONE", "FAIL"} ==> r == PyautoguiConverter.Sleep(FromInt(0))
    ensures r.PyautoguiCode? ==> r.code == Strip(action) && Contains(Lower(Strip(action)), "pyautogui")
    ensures r.Execute? ==> r == PyautoguiConverter.Execute(Strip(action), true) && !Contains(Lower(Strip(action)), "pyautogui")
  {
    var s := Strip(action);
    if Upper(s) in {"DONE", "FAIL"} then PyautoguiConverter.Sleep(FromInt(0))
    else if PyautoguiConverter.WaitSeconds(s).Some? then PyautoguiConverter.Sleep(PyautoguiConverter.WaitSeconds(s).value)
    else if Contains(Lower(s), "pyautogui") then PyautoguiConverter.PyautoguiCode(s)
    else PyautoguiConverter.Execute(s, true)
  }

  /**
   * The four rules of the base dispatch, each with the step it yields; blank
   * text is not refused and runs as an empty shell command.
   */
  lemma StepDispatch(action: string)
    ensures var s := Strip(action);
      && (Upper(s) in {"DONE", "FAIL"} ==> ActionStringToStep(action) == PyautoguiConverter.Sleep(FromInt(0)))
      && (Upper(s) !in {"DONE", "FAIL"} && PyautoguiConverter.WaitSeconds(s).Some? ==>
            ActionStringToStep(action) == PyautoguiConverter.Sleep(PyautoguiConverter.WaitSeconds(s).value))
      && (Upper(s) !in {"DONE", "FAIL"} && PyautoguiConverter.WaitSeconds(s).None? && Contains(Lower(s), "pyautogui") ==>
            ActionStringToStep(action) == PyautoguiConverter.PyautoguiCode(s))
      && (Upper(s) !in {"DONE", "FAIL"} && PyautoguiConverter.WaitSeconds(s).None? && !Contains(Lower(s), "pyautogui") ==>
            ActionStringToStep(action) == PyautoguiConverter.Execute(s, true))
      && (s == [] ==> ActionStringToStep(action) == PyautoguiConverter.Execute([], true))
  {
  }

  /** The DONE a conversion emits for a finished task sleeps no time. */
  lemma DoneSleepsZero()
    ensures ActionStringToStep("DONE") == PyautoguiConverter.Sleep(FromInt(0))
  {
    StripNoop("DONE");
    assert Upper("DONE") == "DONE";
  }

  /**
   * The base and the pyautogui convertor's dispatchers agree on every
   * non-blank string that names neither PynputController nor `_smart_paste`.
   */
  lemma StepAgreesWithConvertor(action: string)
    requires Strip(action) != []
    requires !Contains(Lower(Strip(action)), "pynputcontroller") && !Contains(Lower(Strip(action)), "_smart_paste")
    ensures PyautoguiConverter.ActionStringToStep(action) == Ok(ActionStringToStep(action))
  {
  }

  /** The two dispatchers differ: a blank string is a shell command here and an error there. */
  lemma BlankIsShellCommand()
    ensures ActionStringToStep("") == PyautoguiConverter.Execute("", true)
    ensures PyautoguiConverter.ActionStringToStep("").IsValueError()
  {
    StripNoop("");
    assert Upper("") == "";
    assert !Contains("", "pyautogui");
  }

  /** The two dispatchers differ: `_smart_paste` code is a shell command here ... */
  lemma SmartPasteIsShellCommand()
    ensures ActionStringToStep("_smart_paste('a')") == PyautoguiConverter.Execute("_smart_paste('a')", true)
  {
    var s := "_smart_paste('a')";
    SmartPasteText(s);
    if Contains(Lower(s), "pyautogui") {
      ContainsChar(Lower(s), "pyautogui", 1);
    }
  }

  /** ... and pyautogui code for the convertor. */
  lemma SmartPasteIsConvertorCode()
    ensures PyautoguiConverter.ActionStringToStep("_smart_paste('a')") == Ok(PyautoguiConverter.PyautoguiCode("_smart_paste('a')"))
  {
    var s := "_smart_paste('a')";
    SmartPasteText(s);
    assert PyautoguiConverter.PyautoguiMarked(Lower(s));
  }

  lemma SmartPasteText(s: string)
    requires s == "_smart_paste('a')"
    ensures Strip(s) == s && Lower(s) == s && 'y' !in s
    ensures Upper(s) !in {"DONE", "FAIL"}
    ensures PyautoguiConverter.WaitSeconds(s).None?
    ensures Contains(s, "_smart_paste")
  {
    StripNoop(s);
    assert |Upper(s)| > 4;
    assert Lower(s[..5])[0] == '_';
    assert s[..12] == "_smart_paste";
    ContainsAt(s, "_smart_paste", 0);
  }

  /** The shape of every call the converters emit: `pyautogui.` up to a closing parenthesis. */
  predicate CallForm(cmd: string)
  {
    |cmd| > 10 && cmd[..10] == "pyautogui." && cmd[|cmd| - 1] == ')'
  }

  /** Every `pyautogui.` call is run as pyautogui code, unchanged. */
  lemma CallIsCode(cmd: string)
    requires CallForm(cmd)
    ensures ActionStringToStep(cmd) == PyautoguiConverter.PyautoguiCode(cmd)
  {
    CallStripped(cmd);
    CallNotWait(cmd);
    CallMarked(cmd);
    assert Upper(cmd) !in {"DONE", "FAIL"} by { assert |Upper(cmd)| > 4; }
  }

  lemma CallStripped(cmd: string)
    requires CallForm(cmd)
    ensures Strip(cmd) == cmd
  {
    assert cmd[0] == 'p';
    StripNoop(cmd);
  }

  lemma CallNotWait(cmd: string)
    requires CallForm(cmd)
    ensures PyautoguiConverter.WaitSeconds(cmd).None?
  {
    assert Lower(cmd[..5]) != "wait(" by { assert Lower(cmd[..5])[0] == 'p'; }
  }

  lemma CallMarked(cmd: string)
    requires CallForm(cmd)
    ensures Contains(Lower(cmd), "pyautogui")
  {
    var lower := Lower(cmd);
    assert lower[..9] == "pyautogui";
    ContainsAt(lower, "pyautogui", 0);
  }

  /** Every call built here has the call shape. */
  lemma CallFormOf(name: string, args: string)
    ensures CallForm(PyCall(name, args))
  {
    var cmd := PyCall(name, args);
    assert cmd[..10] == "pyautogui.";
  }

  /** Every click command has the call shape. */
  lemma ClickForm(t: string, x: int, y: int)
    requires IsClickName(t)
    ensures CallForm(ClickAt(t, x, y))
  {
    var at := "x=" + IntToString(x) + ", y=" + IntToString(y);
    CallFormOf("doubleClick", at);
    CallFormOf("tripleClick", at);
    CallFormOf("rightClick", at);
    CallFormOf("click", at + ", button='middle'");
    CallFormOf("click", at);
  }

  lemma MoveToForm(x: int, y: int)
    ensures CallForm(MoveTo(x, y))
  {
    CallFormOf("moveTo", IntToString(x) + ", " + IntToString(y));
  }

  lemma DragToForm(x: int, y: int, duration: Decimal)
    ensures CallForm(DragTo(x, y, duration))
  {
    CallFormOf("dragTo", IntToString(x) + ", " + IntToString(y) + ", duration=" + Decimals.Repr(duration));
  }

  lemma ScrollByForm(amount: int)
    ensures CallForm(ScrollBy(amount))
  {
    CallFormOf("scroll", IntToString(amount));
  }

  lemma TypeQuotedForm(body: string)
    ensures CallForm(TypeQuoted(body))
  {
    CallFormOf("typewrite", "'" + body + "'");
  }

  lemma PressForm(key: string)
    ensures CallForm(Press(key))
  {
    CallFormOf("press", "'" + key + "'");
  }

  /** A hotkey call has the call shape. */
  lemma HotkeyCallForm(keys: seq<string>, interval: Decimal)
    ensures CallForm(PyautoguiConverter.HotkeyCall(keys, interval))
  {
    var cmd := PyautoguiConverter.HotkeyCall(keys, interval);
    assert cmd[..10] == "pyautogui.";
  }

  /** `WAIT(s)` for a duration that is not negative is a sleep of that duration. */
  lemma WaitIsSleep(d: Decimal)
    requires d.mantissa >= 0 && Decimals.Positional(d)
    ensures var r := ActionStringToStep("WAIT(" + Decimals.Repr(d) + ")");
      r.Sleep? && Value(r.seconds) == Value(d)
  {
    var m := Decimals.Repr(d);
    var ip, fp := Decimals.ReprParts(d);
    PyautoguiConverter.DottedWaitNumber(ip, fp);
    Decimals.ParseUnsignedOfRepr(d);
    WaitOfNumber(m, Decimals.ParseUnsigned(m).value);
  }

  /** `WAIT(m)` for a number `m` of the pattern is a sleep of `m` seconds. */
  lemma WaitOfNumber(m: string, v: Decimal)
    requires PyautoguiConverter.WaitNumber(m) && Decimals.ParseUnsigned(m) == Some(v)
    ensures ActionStringToStep("WAIT(" + m + ")") == PyautoguiConverter.Sleep(v)
  {
    var s := "WAIT(" + m + ")";
    PyautoguiConverter.WaitText(m);
    assert Upper(s) !in {"DONE", "FAIL"} by { assert |Upper(s)| > 4; }
    assert PyautoguiConverter.WaitSeconds(s) == Some(v);
  }

  /** `WAIT(n)` for a whole number of seconds is a sleep of that many seconds. */
  lemma WholeWaitIsSleep(n: nat)
    ensures ActionStringToStep("WAIT(" + NatToString(n) + ")") == PyautoguiConverter.Sleep(FromInt(n))
  {
    var m := NatToString(n);
    assert PyautoguiConverter.WaitNumber(m);
    assert IndexWhere(m, c => c == '.') == |m|;
    DigitsValueOfNatToString(n);
    WaitOfNumber(m, FromInt(n));
  }
}
