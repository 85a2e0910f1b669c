/**
 * The action vocabulary shared by the whole pipeline: the closed set of
 * action kinds, the `Action` record with its `count >= 1` rule, and the
 * argument parsers that read `"x, y"`, `"x1, y1, x2, y2"`, `"x, y, dir"`
 * and the press-click JSON payload.
 */
module ActionModel {
  import opened Wrappers
  import opened Text
  import opened Json

  datatype ActionType =
    | Click | LeftDouble | LeftTriple | RightSingle | Drag | MouseMove
    | LeftClickDrag | PressClick | Hotkey | Type | Scroll | Finish | Fail
    | Wait | CallUser

  /** The string value of each kind. */
  function Name(t: ActionType): string
  {
    match t
    case Click => "click"
    case LeftDouble => "left_double"
    case LeftTriple => "left_triple"
    case RightSingle => "right_single"
    case Drag => "drag"
    case MouseMove => "mouse_move"
    case LeftClickDrag => "left_click_drag"
    case PressClick => "press_click"
    case Hotkey => "hotkey"
    case Type => "type"
    case Scroll => "scroll"
    case Finish => "finish"
    case Fail => "fail"
    case Wait => "wait"
    case CallUser => "call_user"
  }

  const AllTypes: seq<ActionType> :=
    [Click, LeftDouble, LeftTriple, RightSingle, Drag, MouseMove, LeftClickDrag,
     PressClick, Hotkey, Type, Scroll, Finish, Fail, Wait, CallUser]

  /** `ActionType(value)`: the kind whose value is `s`, or None where Python raises ValueError. */
  function FromName(s: string): (r: Option<ActionType>)
    ensures r.Some? ==> Name(r.value) == s
    ensures r.None? ==> forall t: ActionType :: Name(t) != s
  {
    if s == "click" then Some(Click)
    else if s == "left_double" then Some(LeftDouble)
    else if s == "left_triple" then Some(LeftTriple)
    else if s == "right_single" then Some(RightSingle)
    else if s == "drag" then Some(Drag)
    else if s == "mouse_move" then Some(MouseMove)
    else if s == "left_click_drag" then Some(LeftClickDrag)
    else if s == "press_click" then Some(PressClick)
    else if s == "hotkey" then Some(Hotkey)
    else if s == "type" then Some(Type)
    else if s == "scroll" then Some(Scroll)
    else if s == "finish" then Some(Finish)
    else if s == "fail" then Some(Fail)
    else if s == "wait" then Some(Wait)
    else if s == "call_user" then Some(CallUser)
    else None
  }

  /** The position of each kind in `AllTypes`. */
  function Ordinal(t: ActionType): (k: nat)
    ensures k < |AllTypes| && AllTypes[k] == t
  {
    match t
    case Click => 0
    case LeftDouble => 1
    case LeftTriple => 2
    case RightSingle => 3
    case Drag => 4
    case MouseMove => 5
    case LeftClickDrag => 6
    case PressClick => 7
    case Hotkey => 8
    case Type => 9
    case Scroll => 10
    case Finish => 11
    case Fail => 12
    case Wait => 13
    case CallUser => 14
  }

  /** The enumeration is closed: exactly fifteen kinds, with fifteen distinct values. */
  lemma ActionTypeClosed()
    ensures |AllTypes| == 15
    ensures forall t: ActionType :: t in AllTypes
    ensures forall i, j :: 0 <= i < j < |AllTypes| ==> Name(AllTypes[i]) != Name(AllTypes[j])
  {
    forall t: ActionType ensures t in AllTypes {
      assert AllTypes[Ordinal(t)] == t;
    }
  }

  /** Reading a kind's value gives the kind back. */
  lemma FromNameOfName(t: ActionType)
    ensures FromName(Name(t)) == Some(t)
  {
  }

  predicate IsTerminal(t: ActionType) { t == Finish || t == Fail }

  /** `Action(type, argument, count)`; `count` may be None and defaults to 1. */
  datatype Action = Action(kind: ActionType, argument: string, count: Option<int>)

  /** The field constraint `count >= 1` (None is allowed). */
  predicate ValidAction(a: Action)
  {
    a.count.Some? ==> a.count.value >= 1
  }

  /** Constructing an action validates the count; a count below 1 is a ValidationError. */
  function MakeAction(kind: ActionType, argument: string, count: int): (r: Result<Action>)
    ensures r.Ok? <==> count >= 1
    ensures r.Ok? ==> r.value == Action(kind, argument, Some(count)) && ValidAction(r.value)
    ensures r.Err? ==> r.error.ValidationError?
  {
    if count >= 1 then Ok(Action(kind, argument, Some(count)))
    else Err(ValidationError("count: Input should be greater than or equal to 1"))
  }

  /** `Action(type, argument)` with the default count. */
  function DefaultAction(kind: ActionType, argument: string): (a: Action)
    ensures ValidAction(a) && a.count == Some(1)
  {
    Action(kind, argument, Some(1))
  }

  /** `count or 1`, the repeat count every consumer uses. */
  function Repeats(a: Action): (n: int)
    ensures ValidAction(a) ==> n >= 1
    ensures a.count.Some? && a.count.value != 0 ==> n == a.count.value
  {
    match a.count
    case Some(c) => if c == 0 then 1 else c
    case None => 1
  }

  // ---------------------------------------------------------------------
  // anchored-prefix recognizers for `(\d+)`, `,\s*` and `(\w+)`; each
  // returns what it read and the text left after the match
  // ---------------------------------------------------------------------

  /** The length of the run of digits the text starts with. */
  function DigitRun(s: string): (n: nat)
    ensures n <= |s|
    ensures forall k :: 0 <= k < n ==> IsDigit(s[k])
    ensures n == |s| || !IsDigit(s[n])
  {
    if |s| > 0 && IsDigit(s[0]) then 1 + DigitRun(s[1..]) else 0
  }

  /** The length of the run of word characters the text starts with. */
  function WordRun(s: string): (n: nat)
    ensures n <= |s|
    ensures forall k :: 0 <= k < n ==> IsWordChar(s[k])
    ensures n == |s| || !IsWordChar(s[n])
  {
    if |s| > 0 && IsWordChar(s[0]) then 1 + WordRun(s[1..]) else 0
  }

  /** `(\d+)` at the start: the number and the text after it. */
  function MatchDigits(s: string): (r: Option<(nat, string)>)
    ensures r.None? <==> (s == [] || !IsDigit(s[0]))
    ensures r.Some? ==> |r.value.1| < |s| && NoLeadingDigit(r.value.1)
  {
    var n := DigitRun(s);
    if n == 0 then None
    else
      assert AllDigits(s[..n]) by {
        forall k | 0 <= k < n ensures IsDigit(s[..n][k]) { assert s[..n][k] == s[k]; }
      }
      Some((DigitsValue(s[..n]), s[n..]))
  }

  /** `,\s*` at the start: the text after the comma and the white space. */
  function MatchComma(s: string): (r: Option<string>)
    ensures r.Some? ==> |r.value| < |s| && (r.value == [] || !IsSpace(r.value[0]))
  {
    if |s| > 0 && s[0] == ',' then Some(LStrip(s[1..])) else None
  }

  /** `,\s*(\d+)` at the start. */
  function MatchCommaDigits(s: string): (r: Option<(nat, string)>)
    ensures r.Some? ==> |r.value.1| < |s|
  {
    match MatchComma(s)
    case None => None
    case Some(t) => MatchDigits(t)
  }

  /** `parse_coords`: `re.match(r"(\d+),\s*(\d+)", s)`; text after the match is ignored. */
  function ParseCoords(s: string): (r: Option<(nat, nat)>)
    ensures r.Some? ==> |s| > 0 && IsDigit(s[0])
  {
    match MatchDigits(s)
    case None => None
    case Some((x, rest)) =>
      match MatchCommaDigits(rest)
      case None => None
      case Some((y, _)) => Some((x, y))
  }

  /** `parse_drag_coords`: the same rule with four numbers. */
  function ParseDragCoords(s: string): (r: Option<(nat, nat, nat, nat)>)
    ensures r.Some? ==> |s| > 0 && IsDigit(s[0])
  {
    match MatchDigits(s)
    case None => None
    case Some((x1, r1)) =>
      match MatchCommaDigits(r1)
      case None => None
      case Some((y1, r2)) =>
        match MatchCommaDigits(r2)
        case None => None
        case Some((x2, r3)) =>
          match MatchCommaDigits(r3)
          case None => None
          case Some((y2, _)) => Some((x1, y1, x2, y2))
  }

  /**
   * `parse_scroll`: `(\d+),\s*(\d+),\s*(\w+)`, the word lower-cased; None
   * unless it is "up" or "down".
   */
  function ParseScroll(s: string): (r: Option<(nat, nat, string)>)
    ensures r.Some? ==> |s| > 0 && IsDigit(s[0])
    ensures r.Some? ==> r.value.2 == "up" || r.value.2 == "down"
  {
    match MatchDigits(s)
    case None => None
    case Some((x, r1)) =>
      match MatchCommaDigits(r1)
      case None => None
      case Some((y, r2)) =>
        match MatchComma(r2)
        case None => None
        case Some(t) =>
          var n := WordRun(t);
          var direction := Lower(t[..n]);
          if n > 0 && (direction == "up" || direction == "down") then Some((x, y, direction)) else None
  }

  // ---------------------------------------------------------------------
  // round trips of the argument texts the tool-call parser writes
  // ---------------------------------------------------------------------

  predicate NoLeadingDigit(s: string) { s == [] || !IsDigit(s[0]) }

  /** `f"{x}, {y}"`, the argument the tool-call parser writes for a point. */
  function CoordsText(x: nat, y: nat): string
  {
    NatToString(x) + ", " + NatToString(y)
  }

  /** `f"{x1}, {y1}, {x2}, {y2}"` */
  function DragText(x1: nat, y1: nat, x2: nat, y2: nat): string
  {
    NatToString(x1) + ", " + NatToString(y1) + ", " + NatToString(x2) + ", " + NatToString(y2)
  }

  /** `f"{x}, {y}, {direction}"`, the argument the tool-call parser writes for a scroll. */
  function ScrollText(x: nat, y: nat, direction: string): string
  {
    NatToString(x) + ", " + NatToString(y) + ", " + direction
  }

  lemma Regroup4(a: string, b: string, c: string, d: string)
    ensures a + b + c + d == a + (b + c + d)
  {
  }

  lemma Regroup6(a: string, b: string, c: string, d: string, e: string, f: string)
    ensures a + b + c + d + e + f == a + (b + c + (d + e + f))
  {
  }

  lemma Regroup8(a: string, b: string, c: string, d: string, e: string, f: string, g: string, h: string)
    ensures a + b + c + d + e + f + g + h == a + (b + c + (d + e + (f + g + h)))
  {
  }

  lemma {:induction false} DigitRunOf(d: string, rest: string)
    requires AllDigits(d) && NoLeadingDigit(rest)
    ensures DigitRun(d + rest) == |d|
  {
    if |d| > 0 {
      assert (d + rest)[1..] == d[1..] + rest;
      DigitRunOf(d[1..], rest);
    }
  }

  lemma {:induction false} WordRunOf(w: string)
    requires forall k :: 0 <= k < |w| ==> IsWordChar(w[k])
    ensures WordRun(w) == |w|
  {
    if |w| > 0 {
      WordRunOf(w[1..]);
    }
  }

  /** A number written in decimal is read back whole, and the text after it is left. */
  lemma NumberOf(x: nat, rest: string)
    requires NoLeadingDigit(rest)
    ensures MatchDigits(NatToString(x) + rest) == Some((x, rest))
  {
    var d := NatToString(x);
    DigitRunOf(d, rest);
    DigitsValueOfNatToString(x);
    assert (d + rest)[..|d|] == d;
    assert (d + rest)[|d|..] == rest;
  }

  /** A comma and one space are skipped before text that does not start with white space. */
  lemma CommaOf(t: string)
    requires t == [] || !IsSpace(t[0])
    ensures MatchComma(", " + t) == Some(t)
  {
    assert (", " + t)[1..] == " " + t;
    assert (" " + t)[1..] == t;
    assert LStrip(t) == t;
  }

  /** `", "` and a number are read back whole, and the text after them is left. */
  lemma CommaNumberOf(y: nat, rest: string)
    requires NoLeadingDigit(rest)
    ensures MatchCommaDigits(", " + NatToString(y) + rest) == Some((y, rest))
  {
    var d := NatToString(y);
    assert ", " + d + rest == ", " + (d + rest);
    assert (d + rest)[0] == d[0];
    CommaOf(d + rest);
    NumberOf(y, rest);
  }

  /** `parse_coords` reads back `"x, y"`, whatever text follows that does not start with a digit. */
  lemma ParseCoordsOfText(x: nat, y: nat, rest: string)
    requires NoLeadingDigit(rest)
    ensures ParseCoords(CoordsText(x, y) + rest) == Some((x, y))
  {
    var dy := NatToString(y);
    var tail := ", " + dy + rest;
    Regroup4(NatToString(x), ", ", dy, rest);
    NumberOf(x, tail);
    CommaNumberOf(y, rest);
  }

  /** `parse_drag_coords` reads back `"x1, y1, x2, y2"`, whatever text follows that does not start with a digit. */
  lemma ParseDragCoordsOfText(x1: nat, y1: nat, x2: nat, y2: nat, rest: string)
    requires NoLeadingDigit(rest)
    ensures ParseDragCoords(DragText(x1, y1, x2, y2) + rest) == Some((x1, y1, x2, y2))
  {
    var r3 := ", " + NatToString(y2) + rest;
    var r2 := ", " + NatToString(x2) + r3;
    var r1 := ", " + NatToString(y1) + r2;
    Regroup8(NatToString(x1), ", ", NatToString(y1), ", ", NatToString(x2), ", ", NatToString(y2), rest);
    NumberOf(x1, r1);
    CommaNumberOf(y1, r2);
    CommaNumberOf(x2, r3);
    CommaNumberOf(y2, rest);
  }

  lemma ParseScrollFrom(s: string, x: nat, y: nat, r1: string, r2: string, t: string)
    requires MatchDigits(s) == Some((x, r1)) && MatchCommaDigits(r1) == Some((y, r2))
    requires MatchComma(r2) == Some(t) && |t| > 0 && WordRun(t) == |t|
    ensures ParseScroll(s) == if Lower(t) == "up" || Lower(t) == "down" then Some((x, y, Lower(t))) else None
  {
    assert t[..|t|] == t;
  }

  /** `parse_scroll` reads back `"x, y, dir"`: the direction lower-cased, or None unless it is up or down. */
  lemma ParseScrollOfText(x: nat, y: nat, dir: string)
    requires |dir| > 0 && forall k :: 0 <= k < |dir| ==> IsWordChar(dir[k])
    ensures ParseScroll(ScrollText(x, y, dir))
      == if Lower(dir) == "up" || Lower(dir) == "down" then Some((x, y, Lower(dir))) else None
  {
    var r2 := ", " + dir;
    var r1 := ", " + NatToString(y) + r2;
    Regroup6(NatToString(x), ", ", NatToString(y), ", ", dir, []);
    assert ScrollText(x, y, dir) + [] == ScrollText(x, y, dir) && r2 + [] == r2;
    NumberOf(x, r1);
    CommaNumberOf(y, r2);
    assert !IsSpace(dir[0]);
    CommaOf(dir);
    WordRunOf(dir);
    ParseScrollFrom(ScrollText(x, y, dir), x, y, r1, r2, dir);
  }


  // ---------------------------------------------------------------------
  // the three parsers against their patterns, for every input and both
  // ways: a match gives the values of its groups, and text that does not
  // have the pattern's shape at its start gives None
  // ---------------------------------------------------------------------

  /** `\d+`: one or more digits. */
  predicate IsNumber(d: string) { |d| > 0 && AllDigits(d) }

  /** `\s*`: white space only. */
  predicate AllSpace(sp: string) { forall k :: 0 <= k < |sp| ==> IsSpace(sp[k]) }

  /** `\w+`: one or more word characters. */
  predicate IsWord(w: string) { |w| > 0 && forall k :: 0 <= k < |w| ==> IsWordChar(w[k]) }

  predicate NoLeadingWordChar(s: string) { s == [] || !IsWordChar(s[0]) }

  /** `s` is `d1,<sp>d2` and a rest that does not go on with a digit. */
  predicate CoordsForm(s: string, d1: string, sp: string, d2: string, rest: string)
  {
    IsNumber(d1) && AllSpace(sp) && IsNumber(d2) && NoLeadingDigit(rest)
    && s == d1 + "," + sp + d2 + rest
  }

  /** `s` is `d1,<s1>d2,<s2>d3,<s3>d4` and a rest that does not go on with a digit. */
  predicate DragForm(s: string, d1: string, s1: string, d2: string, s2: string, d3: string, s3: string, d4: string, rest: string)
  {
    IsNumber(d1) && AllSpace(s1) && IsNumber(d2) && AllSpace(s2) && IsNumber(d3) && AllSpace(s3) && IsNumber(d4)
    && NoLeadingDigit(rest)
    && s == d1 + "," + s1 + d2 + "," + s2 + d3 + "," + s3 + d4 + rest
  }

  /** `s` is `d1,<s1>d2,<s2>w` and a rest that does not go on with a word character. */
  predicate ScrollForm(s: string, d1: string, s1: string, d2: string, s2: string, w: string, rest: string)
  {
    IsNumber(d1) && AllSpace(s1) && IsNumber(d2) && AllSpace(s2) && IsWord(w) && NoLeadingWordChar(rest)
    && s == d1 + "," + s1 + d2 + "," + s2 + w + rest
  }

  predicate IsDirection(w: string) { Lower(w) == "up" || Lower(w) == "down" }

  lemma {:induction false} LStripSpaces(sp: string, t: string)
    requires AllSpace(sp) && (t == [] || !IsSpace(t[0]))
    ensures LStrip(sp + t) == t
  {
    if |sp| > 0 {
      assert (sp + t)[0] == sp[0];
      assert (sp + t)[1..] == sp[1..] + t;
      LStripSpaces(sp[1..], t);
    } else {
      assert sp + t == t;
    }
  }

  lemma {:induction false} LStripParts(s: string)
    ensures var n := |s| - |LStrip(s)|; AllSpace(s[..n]) && s == s[..n] + LStrip(s)
    decreases |s|
  {
    if |s| > 0 && IsSpace(s[0]) {
      LStripParts(s[1..]);
      var n := |s| - |LStrip(s)|;
      assert s[1..][..n - 1] == s[1..n];
      assert s[..n] == [s[0]] + s[1..n];
    } else {
      assert s[..0] == [];
    }
  }

  lemma MatchDigitsOf(d: string, rest: string)
    requires IsNumber(d) && NoLeadingDigit(rest)
    ensures MatchDigits(d + rest) == Some((DigitsValue(d), rest))
  {
    DigitRunOf(d, rest);
    assert (d + rest)[..|d|] == d;
    assert (d + rest)[|d|..] == rest;
  }

  lemma MatchCommaOf(sp: string, t: string)
    requires AllSpace(sp) && (t == [] || !IsSpace(t[0]))
    ensures MatchComma("," + sp + t) == Some(t)
  {
    assert ("," + sp + t)[1..] == sp + t;
    LStripSpaces(sp, t);
  }

  lemma MatchCommaDigitsOf(sp: string, d: string, rest: string)
    requires AllSpace(sp) && IsNumber(d) && NoLeadingDigit(rest)
    ensures MatchCommaDigits("," + sp + d + rest) == Some((DigitsValue(d), rest))
  {
    var t := d + rest;
    assert "," + sp + d + rest == "," + sp + t;
    assert t[0] == d[0] && IsDigit(d[0]);
    MatchCommaOf(sp, t);
    MatchDigitsOf(d, rest);
  }

  lemma MatchDigitsParts(s: string) returns (d: string)
    requires MatchDigits(s).Some?
    ensures IsNumber(d) && s == d + MatchDigits(s).value.1 && MatchDigits(s).value.0 == DigitsValue(d)
  {
    var n := DigitRun(s);
    d := s[..n];
    assert s == s[..n] + s[n..];
  }

  lemma MatchCommaParts(s: string) returns (sp: string)
    requires MatchComma(s).Some?
    ensures AllSpace(sp) && s == "," + sp + MatchComma(s).value
  {
    var u := s[1..];
    LStripParts(u);
    sp := u[..|u| - |LStrip(u)|];
    assert s == [s[0]] + u;
  }

  lemma CommaDigitsParts(s: string) returns (sp: string, d: string)
    requires MatchCommaDigits(s).Some?
    ensures AllSpace(sp) && IsNumber(d) && MatchCommaDigits(s).value.0 == DigitsValue(d)
    ensures s == "," + sp + d + MatchCommaDigits(s).value.1
  {
    var t := MatchComma(s).value;
    sp := MatchCommaParts(s);
    d := MatchDigitsParts(t);
    assert "," + sp + (d + MatchDigits(t).value.1) == "," + sp + d + MatchDigits(t).value.1;
  }

  /** `(\d+),\s*(\d+)` matches every text of that shape, with the values of the two numbers. */
  lemma ParseCoordsAccepts(d1: string, sp: string, d2: string, rest: string)
    requires IsNumber(d1) && AllSpace(sp) && IsNumber(d2) && NoLeadingDigit(rest)
    ensures ParseCoords(d1 + "," + sp + d2 + rest) == Some((DigitsValue(d1), DigitsValue(d2)))
  {
    var tail := "," + sp + d2 + rest;
    CoordsAssoc(d1, sp, d2, rest);
    assert tail[0] == ',';
    MatchDigitsOf(d1, tail);
    MatchCommaDigitsOf(sp, d2, rest);
    ParseCoordsFrom(d1 + tail, DigitsValue(d1), tail, DigitsValue(d2), rest);
  }

  lemma CoordsAssoc(d1: string, sp: string, d2: string, rest: string)
    ensures d1 + "," + sp + d2 + rest == d1 + ("," + sp + d2 + rest)
  {
  }

  lemma ParseCoordsFrom(s: string, x: nat, r1: string, y: nat, rest: string)
    requires MatchDigits(s) == Some((x, r1)) && MatchCommaDigits(r1) == Some((y, rest))
    ensures ParseCoords(s) == Some((x, y))
  {
  }

  /**
   * `parse_coords` succeeds exactly on the texts that start with the
   * pattern's shape, and then gives the two numbers; any other text is None.
   */
  lemma ParseCoordsSpec(s: string)
    ensures ParseCoords(s).Some? <==> exists d1, sp, d2, rest :: CoordsForm(s, d1, sp, d2, rest)
    ensures forall d1, sp, d2, rest :: CoordsForm(s, d1, sp, d2, rest)
              ==> ParseCoords(s) == Some((DigitsValue(d1), DigitsValue(d2)))
  {
    forall d1, sp, d2, rest | CoordsForm(s, d1, sp, d2, rest)
      ensures ParseCoords(s) == Some((DigitsValue(d1), DigitsValue(d2)))
    {
      ParseCoordsAccepts(d1, sp, d2, rest);
    }
    if ParseCoords(s).Some? {
      var r1 := MatchDigits(s).value.1;
      var d1 := MatchDigitsParts(s);
      var sp, d2 := CommaDigitsParts(r1);
      var rest := MatchCommaDigits(r1).value.1;
      CoordsAssoc(d1, sp, d2, rest);
      assert CoordsForm(s, d1, sp, d2, rest);
    }
  }

  lemma DragAssoc(d1: string, s1: string, d2: string, s2: string, d3: string, s3: string, d4: string, rest: string)
    ensures d1 + "," + s1 + d2 + "," + s2 + d3 + "," + s3 + d4 + rest
      == d1 + ("," + s1 + d2 + ("," + s2 + d3 + ("," + s3 + d4 + rest)))
  {
  }

  /** `(\d+),\s*(\d+),\s*(\d+),\s*(\d+)` matches every text of that shape, with the values of the four numbers. */
  lemma ParseDragCoordsAccepts(d1: string, s1: string, d2: string, s2: string, d3: string, s3: string, d4: string, rest: string)
    requires IsNumber(d1) && AllSpace(s1) && IsNumber(d2) && AllSpace(s2) && IsNumber(d3) && AllSpace(s3) && IsNumber(d4)
    requires NoLeadingDigit(rest)
    ensures ParseDragCoords(d1 + "," + s1 + d2 + "," + s2 + d3 + "," + s3 + d4 + rest)
      == Some((DigitsValue(d1), DigitsValue(d2), DigitsValue(d3), DigitsValue(d4)))
  {
    var r3 := "," + s3 + d4 + rest;
    var r2 := "," + s2 + d3 + r3;
    var r1 := "," + s1 + d2 + r2;
    DragAssoc(d1, s1, d2, s2, d3, s3, d4, rest);
    assert r1[0] == ',';
    MatchDigitsOf(d1, r1);
    assert r2[0] == ',';
    MatchCommaDigitsOf(s1, d2, r2);
    assert r3[0] == ',';
    MatchCommaDigitsOf(s2, d3, r3);
    MatchCommaDigitsOf(s3, d4, rest);
    ParseDragCoordsFrom(d1 + r1, DigitsValue(d1), r1, DigitsValue(d2), r2, DigitsValue(d3), r3, DigitsValue(d4), rest);
  }

  lemma ParseDragCoordsFrom(s: string, x1: nat, r1: string, y1: nat, r2: string, x2: nat, r3: string, y2: nat, rest: string)
    requires MatchDigits(s) == Some((x1, r1)) && MatchCommaDigits(r1) == Some((y1, r2))
    requires MatchCommaDigits(r2) == Some((x2, r3)) && MatchCommaDigits(r3) == Some((y2, rest))
    ensures ParseDragCoords(s) == Some((x1, y1, x2, y2))
  {
  }

  /**
   * `parse_drag_coords` succeeds exactly on the texts that start with the
   * four-number shape, and then gives the four numbers; any other text is None.
   */
  lemma ParseDragCoordsSpec(s: string)
    ensures ParseDragCoords(s).Some? <==> exists d1, s1, d2, s2, d3, s3, d4, rest :: DragForm(s, d1, s1, d2, s2, d3, s3, d4, rest)
    ensures forall d1, s1, d2, s2, d3, s3, d4, rest :: DragForm(s, d1, s1, d2, s2, d3, s3, d4, rest)
              ==> ParseDragCoords(s) == Some((DigitsValue(d1), DigitsValue(d2), DigitsValue(d3), DigitsValue(d4)))
  {
    forall d1, s1, d2, s2, d3, s3, d4, rest | DragForm(s, d1, s1, d2, s2, d3, s3, d4, rest)
      ensures ParseDragCoords(s) == Some((DigitsValue(d1), DigitsValue(d2), DigitsValue(d3), DigitsValue(d4)))
    {
      ParseDragCoordsAccepts(d1, s1, d2, s2, d3, s3, d4, rest);
    }
    if ParseDragCoords(s).Some? {
      var r1 := MatchDigits(s).value.1;
      var d1 := MatchDigitsParts(s);
      var r2 := MatchCommaDigits(r1).value.1;
      var s1, d2 := CommaDigitsParts(r1);
      var r3 := MatchCommaDigits(r2).value.1;
      var s2, d3 := CommaDigitsParts(r2);
      var rest := MatchCommaDigits(r3).value.1;
      var s3, d4 := CommaDigitsParts(r3);
      DragAssoc(d1, s1, d2, s2, d3, s3, d4, rest);
      assert DragForm(s, d1, s1, d2, s2, d3, s3, d4, rest);
    }
  }

  lemma {:induction false} WordRunOfWord(w: string, rest: string)
    requires IsWord(w) && NoLeadingWordChar(rest)
    ensures WordRun(w + rest) == |w|
    decreases |w|
  {
    assert (w + rest)[0] == w[0];
    if |w| > 1 {
      assert (w + rest)[1..] == w[1..] + rest;
      WordRunOfWord(w[1..], rest);
    } else {
      assert (w + rest)[1..] == rest;
    }
  }

  lemma ScrollAssoc(d1: string, s1: string, d2: string, s2: string, w: string, rest: string)
    ensures d1 + "," + s1 + d2 + "," + s2 + w + rest == d1 + ("," + s1 + d2 + ("," + s2 + (w + rest)))
  {
  }

  /** The word the scroll pattern reads after the second comma. */
  lemma ScrollWordOf(w: string, rest: string)
    requires IsWord(w) && NoLeadingWordChar(rest)
    ensures var t := w + rest; var n := WordRun(t); n == |w| && t[..n] == w
  {
    WordRunOfWord(w, rest);
    assert (w + rest)[..|w|] == w;
  }

  /**
   * `(\d+),\s*(\d+),\s*(\w+)` matches every text of that shape; the result
   * is the two numbers and the lower-cased word when that is up or down,
   * and None otherwise.
   */
  lemma ParseScrollAccepts(d1: string, s1: string, d2: string, s2: string, w: string, rest: string)
    requires IsNumber(d1) && AllSpace(s1) && IsNumber(d2) && AllSpace(s2) && IsWord(w) && NoLeadingWordChar(rest)
    ensures ParseScroll(d1 + "," + s1 + d2 + "," + s2 + w + rest)
      == if IsDirection(w) then Some((DigitsValue(d1), DigitsValue(d2), Lower(w))) else None
  {
    var t := w + rest;
    var r2 := "," + s2 + t;
    var r1 := "," + s1 + d2 + r2;
    ScrollAssoc(d1, s1, d2, s2, w, rest);
    assert r1[0] == ',';
    MatchDigitsOf(d1, r1);
    assert r2[0] == ',';
    MatchCommaDigitsOf(s1, d2, r2);
    assert t[0] == w[0] && IsWordChar(w[0]);
    MatchCommaOf(s2, t);
    ScrollWordOf(w, rest);
    ParseScrollWord(d1 + r1, DigitsValue(d1), r1, DigitsValue(d2), r2, t, w);
  }

  lemma ParseScrollWord(s: string, x: nat, r1: string, y: nat, r2: string, t: string, w: string)
    requires MatchDigits(s) == Some((x, r1)) && MatchCommaDigits(r1) == Some((y, r2))
    requires MatchComma(r2) == Some(t) && |w| > 0 && WordRun(t) == |w| && t[..|w|] == w
    ensures ParseScroll(s) == if IsDirection(w) then Some((x, y, Lower(w))) else None
  {
  }

  lemma ScrollWordParts(t: string) returns (w: string, rest: string)
    requires WordRun(t) > 0
    ensures IsWord(w) && NoLeadingWordChar(rest) && t == w + rest && w == t[..WordRun(t)]
  {
    var n := WordRun(t);
    w, rest := t[..n], t[n..];
    assert t == t[..n] + t[n..];
  }

  /**
   * `parse_scroll` succeeds exactly on the texts that start with the
   * pattern's shape and whose word is up or down in any case, and then
   * gives the two numbers and the lower-cased direction; any other text is None.
   */
  lemma ParseScrollSpec(s: string)
    ensures ParseScroll(s).Some? <==> exists d1, s1, d2, s2, w, rest :: ScrollForm(s, d1, s1, d2, s2, w, rest) && IsDirection(w)
    ensures forall d1, s1, d2, s2, w, rest :: ScrollForm(s, d1, s1, d2, s2, w, rest)
              ==> ParseScroll(s) == if IsDirection(w) then Some((DigitsValue(d1), DigitsValue(d2), Lower(w))) else None
  {
    forall d1, s1, d2, s2, w, rest | ScrollForm(s, d1, s1, d2, s2, w, rest)
      ensures ParseScroll(s) == if IsDirection(w) then Some((DigitsValue(d1), DigitsValue(d2), Lower(w))) else None
    {
      ParseScrollAccepts(d1, s1, d2, s2, w, rest);
    }
    if ParseScroll(s).Some? {
      var r1 := MatchDigits(s).value.1;
      var d1 := MatchDigitsParts(s);
      var r2 := MatchCommaDigits(r1).value.1;
      var s1, d2 := CommaDigitsParts(r1);
      var t := MatchComma(r2).value;
      var s2 := MatchCommaParts(r2);
      var w, rest := ScrollWordParts(t);
      ScrollAssoc(d1, s1, d2, s2, w, rest);
      assert ScrollForm(s, d1, s1, d2, s2, w, rest);
      assert IsDirection(w);
    }
  }

  // ---------------------------------------------------------------------
  // press_click
  // ---------------------------------------------------------------------

  datatype PressClickArgs = PressClickArgs(keys: seq<string>, clickType: string, x: int, y: int)

  const ClickTypes: set<string> := {"left_click", "right_click", "double_click", "triple_click"}

  /** `str(v).strip()` */
  function StrippedStr(v: Json): (t: string)
    ensures Strip(t) == t
  {
    StripIdempotent(PyStr(v));
    Strip(PyStr(v))
  }

  /** `[str(k).strip() for k in items if str(k).strip()]` */
  function NonBlankStrs(items: seq<Json>): (r: seq<string>)
    ensures |r| <= |items|
  {
    if |items| == 0 then [] else Kept(items[0]) + NonBlankStrs(items[1..])
  }

  /** What the comprehension keeps of one entry. */
  function Kept(v: Json): seq<string>
  {
    var t := StrippedStr(v);
    if t == [] then [] else [t]
  }

  /** Every key kept is stripped and non-blank. */
  lemma {:induction false} NonBlankStrsClean(items: seq<Json>)
    ensures AllClean(NonBlankStrs(items))
  {
    if |items| > 0 {
      NonBlankStrsClean(items[1..]);
      var t := StrippedStr(items[0]);
      CleanCons(t, NonBlankStrs(items[1..]));
    }
  }



  /** The entries' kept pieces, concatenated in order. */
  function ConcatMap<T, U>(f: T -> seq<U>, items: seq<T>): seq<U>
  {
    if |items| == 0 then [] else f(items[0]) + ConcatMap(f, items[1..])
  }

  lemma {:induction false} ConcatMapAppend<T, U>(f: T -> seq<U>, a: seq<T>, b: seq<T>)
    ensures ConcatMap(f, a + b) == ConcatMap(f, a) + ConcatMap(f, b)
    decreases |a|
  {
    if |a| == 0 {
      assert a + b == b;
    } else {
      assert (a + b)[0] == a[0];
      assert (a + b)[1..] == a[1..] + b;
      ConcatMapAppend(f, a[1..], b);
    }
  }

  lemma {:induction false} NonBlankStrsIsConcatMap(items: seq<Json>)
    ensures NonBlankStrs(items) == ConcatMap(Kept, items)
    decreases |items|
  {
    if |items| > 0 {
      NonBlankStrsIsConcatMap(items[1..]);
    }
  }

  /** The comprehension works piecewise: the keys of `a + b` are those of `a`, then those of `b`. */
  lemma NonBlankStrsAppend(a: seq<Json>, b: seq<Json>)
    ensures NonBlankStrs(a + b) == NonBlankStrs(a) + NonBlankStrs(b)
  {
    NonBlankStrsIsConcatMap(a + b);
    NonBlankStrsIsConcatMap(a);
    NonBlankStrsIsConcatMap(b);
    ConcatMapAppend(Kept, a, b);
  }

  lemma {:induction false} ConcatMapMember<T, U>(f: T -> seq<U>, items: seq<T>)
    ensures forall u :: u in ConcatMap(f, items) <==> exists i :: 0 <= i < |items| && u in f(items[i])
    decreases |items|
  {
    if |items| > 0 {
      ConcatMapMember(f, items[1..]);
      forall u ensures u in ConcatMap(f, items) <==> exists i :: 0 <= i < |items| && u in f(items[i])
      {
        if u in ConcatMap(f, items[1..]) {
          var i :| 0 <= i < |items[1..]| && u in f(items[1..][i]);
          assert items[i + 1] == items[1..][i];
        }
        if exists i :: 0 <= i < |items| && u in f(items[i]) {
          var i :| 0 <= i < |items| && u in f(items[i]);
          if i > 0 {
            assert items[1..][i - 1] == items[i];
          }
        }
      }
    }
  }

  /** A key is kept exactly when it is the non-blank stripped text of some entry. */
  lemma NonBlankStrsMember(items: seq<Json>)
    ensures forall k :: k in NonBlankStrs(items) <==> k != [] && exists i :: 0 <= i < |items| && StrippedStr(items[i]) == k
  {
    NonBlankStrsIsConcatMap(items);
    ConcatMapMember(Kept, items);
    forall k ensures k in NonBlankStrs(items) <==> k != [] && exists i :: 0 <= i < |items| && StrippedStr(items[i]) == k
    {
      if k in NonBlankStrs(items) {
        var i :| 0 <= i < |items| && k in Kept(items[i]);
        KeptMember(items[i], k);
      }
      if k != [] && exists i :: 0 <= i < |items| && StrippedStr(items[i]) == k {
        var i :| 0 <= i < |items| && StrippedStr(items[i]) == k;
        KeptMember(items[i], k);
      }
    }
  }

  lemma KeptMember(v: Json, k: string)
    ensures k in Kept(v) <==> k != [] && StrippedStr(v) == k
  {
  }

  /** The keys as a JSON list of strings. */
  function StrItems(keys: seq<string>): (items: seq<Json>)
    ensures |items| == |keys|
  {
    if |keys| == 0 then [] else [JStr(keys[0])] + StrItems(keys[1..])
  }

  /** Keys that are already stripped and non-blank pass through `NonBlankStrs` unchanged. */
  lemma StrippedStrOfClean(k: string)
    requires Clean(k)
    ensures StrippedStr(JStr(k)) == k
  {
  }

  lemma NonBlankStrsCons(k: string, items: seq<Json>)
    requires Clean(k)
    ensures NonBlankStrs([JStr(k)] + items) == [k] + NonBlankStrs(items)
  {
    assert ([JStr(k)] + items)[0] == JStr(k);
    assert ([JStr(k)] + items)[1..] == items;
    StrippedStrOfClean(k);
  }

  lemma {:induction false} NonBlankStrsOfKeys(keys: seq<string>)
    requires AllClean(keys)
    ensures NonBlankStrs(StrItems(keys)) == keys
  {
    if |keys| > 0 {
      assert Clean(keys[0]);
      NonBlankStrsCons(keys[0], StrItems(keys[1..]));
      NonBlankStrsOfKeys(keys[1..]);
      assert keys == [keys[0]] + keys[1..];
    }
  }



  /** The keys of a press-click payload: a list loses its blank entries, a non-blank string becomes one key. */
  function PressKeys(raw: Json): (keys: seq<string>)
  {
    if raw.JArr? then NonBlankStrs(raw.items)
    else if raw.JStr? && !IsBlank(raw.s) then [Strip(raw.s)]
    else []
  }

  /** Every key `PressKeys` returns is stripped and non-blank. */
  lemma PressKeysClean(raw: Json)
    ensures AllClean(PressKeys(raw))
  {
    if raw.JArr? {
      NonBlankStrsClean(raw.items);
    } else if raw.JStr? && !IsBlank(raw.s) {
      StripIdempotent(raw.s);
    }
  }

  /**
   * A list or tuple of at least two entries whose first two convert with
   * `int(float(v))`; None where Python returns None or raises TypeError or
   * ValueError.
   */
  function CoordinatePair(raw: Option<Json>): (r: Option<(int, int)>)
    ensures r.Some? ==> raw.Some? && raw.value.JArr? && |raw.value.items| >= 2
  {
    if raw.None? || !raw.value.JArr? || |raw.value.items| < 2 then None
    else
      var x := PyIntOfFloat(raw.value.items[0]);
      var y := PyIntOfFloat(raw.value.items[1]);
      if x.None? || y.None? then None else Some((x.value, y.value))
  }

  /** `str(payload.get("click_type", "")).strip().lower()` */
  function ClickTypeOf(fields: seq<(string, Json)>): string
  {
    Lower(Strip(PyStr(GetOr(fields, "click_type", JStr("")))))
  }

  /**
   * `parse_press_click` over the decoded payload (None where `json.loads`
   * raised): keys from a list or a lone non-blank string, a recognised click
   * type, and a coordinate list of at least two numbers, truncated.
   */
  function ParsePressClick(payload: Option<Json>): (r: Option<PressClickArgs>)
    ensures r.Some? ==> payload.Some? && payload.value.JObj?
    ensures r.Some? ==> r.value.clickType in ClickTypes
  {
    if payload.None? || !payload.value.JObj? then None
    else
      var fields := payload.value.fields;
      var keys := PressKeys(GetOr(fields, "keys", JArr([])));
      var clickType := ClickTypeOf(fields);
      if clickType !in ClickTypes then None
      else
        match CoordinatePair(Get(fields, "coordinate"))
        case None => None
        case Some((x, y)) => Some(PressClickArgs(keys, clickType, x, y))
  }

  /** A parsed press-click never carries a blank or unstripped key. */
  lemma ParsePressClickKeysClean(payload: Option<Json>)
    ensures var r := ParsePressClick(payload);
      r.Some? ==> AllClean(r.value.keys)
  {
    if payload.Some? && payload.value.JObj? {
      PressKeysClean(GetOr(payload.value.fields, "keys", JArr([])));
    }
  }

  /** The object the tool-call parser serialises for a press-click action. */
  function PressClickPayload(keys: seq<string>, clickType: string, x: int, y: int): Json
  {
    JObj([("keys", JArr(StrItems(keys))),
          ("click_type", JStr(clickType)),
          ("coordinate", JArr([JInt(x), JInt(y)]))])
  }

  /** Keys that are stripped and non-blank come back from `PressKeys` unchanged. */
  lemma PressKeysOfKeys(keys: seq<string>)
    requires AllClean(keys)
    ensures PressKeys(JArr(StrItems(keys))) == keys
  {
    NonBlankStrsOfKeys(keys);
  }

  /** Where each field of the payload is found. */
  lemma PressClickPayloadFields(keys: seq<string>, clickType: string, x: int, y: int)
    ensures var fields := PressClickPayload(keys, clickType, x, y).fields;
      Get(fields, "keys") == Some(JArr(StrItems(keys)))
      && Get(fields, "click_type") == Some(JStr(clickType))
      && Get(fields, "coordinate") == Some(JArr([JInt(x), JInt(y)]))
  {
    var f1 := [("keys", JArr(StrItems(keys)))];
    var f2 := f1 + [("click_type", JStr(clickType))];
    var f3 := f2 + [("coordinate", JArr([JInt(x), JInt(y)]))];
    assert PressClickPayload(keys, clickType, x, y).fields == f3;
    assert "coordinate"[1] != "click_type"[1];
    assert |"coordinate"| != |"keys"| && |"click_type"| != |"keys"|;
    GetPush(f2, "coordinate", JArr([JInt(x), JInt(y)]), "keys");
    GetPush(f2, "coordinate", JArr([JInt(x), JInt(y)]), "click_type");
    GetPush(f2, "coordinate", JArr([JInt(x), JInt(y)]), "coordinate");
    GetPush(f1, "click_type", JStr(clickType), "keys");
    GetPush(f1, "click_type", JStr(clickType), "click_type");
    GetPush([], "keys", JArr(StrItems(keys)), "keys");
    assert [] + [("keys", JArr(StrItems(keys)))] == f1;
  }

  /** The recognised click types are non-empty lower-case words. */
  lemma ClickTypesAreWords(clickType: string)
    requires clickType in ClickTypes
    ensures |clickType| > 0 && LowerWord(clickType)
  {
  }

  /** `CoordinatePair` reads two integers back as they are. */
  lemma CoordinatePairOfInts(x: int, y: int)
    ensures CoordinatePair(Some(JArr([JInt(x), JInt(y)]))) == Some((x, y))
  {
  }

  lemma ParsePressClickFrom(fields: seq<(string, Json)>, keys: seq<string>, clickType: string, x: int, y: int)
    requires PressKeys(GetOr(fields, "keys", JArr([]))) == keys
    requires ClickTypeOf(fields) == clickType && clickType in ClickTypes
    requires CoordinatePair(Get(fields, "coordinate")) == Some((x, y))
    ensures ParsePressClick(Some(JObj(fields))) == Some(PressClickArgs(keys, clickType, x, y))
  {
  }

  lemma ClickTypeOfFields(fields: seq<(string, Json)>, clickType: string)
    requires Get(fields, "click_type") == Some(JStr(clickType))
    requires |clickType| > 0 && LowerWord(clickType)
    ensures ClickTypeOf(fields) == clickType
  {
    LowerWordNormal(clickType);
  }

  /** What the tool-call parser writes, `parse_press_click` reads back unchanged. */
  lemma ParsePressClickOfPayload(keys: seq<string>, clickType: string, x: int, y: int)
    requires AllClean(keys)
    requires clickType in ClickTypes
    ensures ParsePressClick(Some(PressClickPayload(keys, clickType, x, y)))
      == Some(PressClickArgs(keys, clickType, x, y))
  {
    var fields := PressClickPayload(keys, clickType, x, y).fields;
    PressClickPayloadFields(keys, clickType, x, y);
    PressKeysOfKeys(keys);
    ClickTypesAreWords(clickType);
    ClickTypeOfFields(fields, clickType);
    CoordinatePairOfInts(x, y);
    ParsePressClickFrom(fields, keys, clickType, x, y);
  }
}
