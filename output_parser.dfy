/**
 * The output parser: raw model text to a `Step` of actions. Two grammars
 * are read, the tagged legacy grammar (`<|think_start|>`, `<|action_start|>`
 * and `&`-separated calls such as `click(10, 20)`) and the Qwen3 grammar
 * (`<think>`, an `Action:` summary line and `<tool_call>` JSON blocks);
 * the parser mode picks one of them or chooses between them.
 */
module OutputParser {
  import opened Wrappers
  import opened Text
  import opened Json
  import opened ActionModel
  import Decimals

  /** The parsed step: the reasoning text, the actions, and whether the task ends here. */
  datatype Step = Step(reason: string, actions: seq<Action>, stop: bool)

  predicate HasTerminal(actions: seq<Action>)
  {
    exists k :: 0 <= k < |actions| && IsTerminal(actions[k].kind)
  }

  // ---------------------------------------------------------------------
  // `_split_actions`: `&` splits only outside parentheses
  // ---------------------------------------------------------------------

  function Delta(c: char): int
  {
    if c == '(' then 1 else if c == ')' then -1 else 0
  }

  /** The parenthesis depth after reading `t`: opening minus closing parentheses. */
  function Depth(t: string): int
  {
    if |t| == 0 then 0 else Depth(t[..|t| - 1]) + Delta(t[|t| - 1])
  }

  /** An `&` at depth zero, where the splitter cuts. */
  predicate TopAmp(t: string, k: nat)
    requires k < |t|
  {
    t[k] == '&' && Depth(t[..k]) == 0
  }

  /** The first cut at or after `from`, or `|t|` where there is none. */
  function FirstTopAmp(t: string, from: nat): (k: nat)
    requires from <= |t|
    ensures from <= k <= |t|
    ensures k < |t| ==> TopAmp(t, k)
    ensures forall m :: from <= m < k ==> !TopAmp(t, m)
    decreases |t| - from
  {
    if from == |t| then |t|
    else if TopAmp(t, from) then from
    else FirstTopAmp(t, from + 1)
  }

  /** The text between consecutive cuts, blanks included. */
  function Pieces(t: string): (ps: seq<string>)
    ensures |ps| >= 1
    decreases |t|
  {
    var k := FirstTopAmp(t, 0);
    if k == |t| then [t] else [t[..k]] + Pieces(t[k + 1..])
  }

  /** What `_split_actions` returns: the pieces stripped, blank ones dropped. */
  function SplitSpec(block: string): seq<string>
  {
    NonBlank(Pieces(block))
  }

  lemma NonBlankCons(p: string, rest: seq<string>)
    ensures NonBlank([p] + rest) == (if IsBlank(p) then [] else [Strip(p)]) + NonBlank(rest)
  {
    assert ([p] + rest)[1..] == rest;
  }

  /** Where the first cut of `t` is at `k`, the pieces are the text before it and the pieces after it. */
  lemma PiecesAt(t: string, k: nat)
    requires k < |t| && FirstTopAmp(t, 0) == k
    ensures NonBlank(Pieces(t)) == (if IsBlank(t[..k]) then [] else [Strip(t[..k])]) + NonBlank(Pieces(t[k + 1..]))
  {
    NonBlankCons(t[..k], Pieces(t[k + 1..]));
  }

  lemma PiecesNone(t: string)
    requires FirstTopAmp(t, 0) == |t|
    ensures NonBlank(Pieces(t)) == (if IsBlank(t) then [] else [Strip(t)])
  {
    NonBlankCons(t, []);
  }

  lemma DepthPush(t: string, c: char)
    ensures Depth(t + [c]) == Depth(t) + Delta(c)
  {
    assert (t + [c])[..|t|] == t;
  }

  /** The loop state of the splitter: `current` is the text read since the last cut at `j`. */
  ghost predicate SplitInv(block: string, total: seq<string>, j: nat, i: nat, current: string, level: int, actions: seq<string>)
  {
    j <= i <= |block| && current == block[j..i] && level == Depth(current)
    && FirstTopAmp(block[j..], 0) >= i - j
    && total == actions + NonBlank(Pieces(block[j..]))
  }

  /** Reading an `&` at depth zero closes the current piece. */
  lemma CutStep(block: string, total: seq<string>, j: nat, i: nat, current: string, actions: seq<string>)
    requires SplitInv(block, total, j, i, current, 0, actions) && i < |block| && block[i] == '&'
    ensures SplitInv(block, total, i + 1, i + 1, [], 0, if IsBlank(current) then actions else actions + [Strip(current)])
  {
    SliceFacts(block, j, i);
    CutTotal(block[j..], i - j, actions, total);
  }

  /** The whole result, seen from a cut at `k`. */
  lemma CutTotal(t: string, k: nat, actions: seq<string>, total: seq<string>)
    requires k < |t| && t[k] == '&' && Depth(t[..k]) == 0 && FirstTopAmp(t, 0) >= k
    requires total == actions + NonBlank(Pieces(t))
    ensures total == (if IsBlank(t[..k]) then actions else actions + [Strip(t[..k])]) + NonBlank(Pieces(t[k + 1..]))
  {
    CutAt(t, k);
    var cut := if IsBlank(t[..k]) then [] else [Strip(t[..k])];
    Regroup(actions, cut, NonBlank(Pieces(t[k + 1..])));
    if IsBlank(t[..k]) {
      assert actions + cut == actions;
    }
  }

  lemma Regroup<T>(a: seq<T>, b: seq<T>, c: seq<T>)
    ensures a + (b + c) == (a + b) + c
  {
  }

  lemma SliceFacts(block: string, j: nat, i: nat)
    requires j <= i < |block|
    ensures block[j..][..i - j] == block[j..i] && block[j..][i - j] == block[i]
    ensures block[j..][i - j + 1..] == block[i + 1..] && block[i + 1..i + 1] == []
  {
  }

  /** A cut at `k`, with none before it, splits the pieces there. */
  lemma CutAt(t: string, k: nat)
    requires k < |t| && t[k] == '&' && Depth(t[..k]) == 0 && FirstTopAmp(t, 0) >= k
    ensures NonBlank(Pieces(t)) == (if IsBlank(t[..k]) then [] else [Strip(t[..k])]) + NonBlank(Pieces(t[k + 1..]))
  {
    assert TopAmp(t, k);
    PiecesAt(t, k);
  }

  /** Reading any other character extends the current piece. */
  lemma KeepStep(block: string, total: seq<string>, j: nat, i: nat, current: string, level: int, actions: seq<string>)
    requires SplitInv(block, total, j, i, current, level, actions) && i < |block| && !(block[i] == '&' && level == 0)
    ensures SplitInv(block, total, j, i + 1, current + [block[i]], level + Delta(block[i]), actions)
  {
    var t := block[j..];
    SliceFacts(block, j, i);
    assert !TopAmp(t, i - j);
    NoCutHere(t, i - j);
    DepthPush(current, block[i]);
    SliceExtend(block, j, i);
  }

  /** A position that is not a cut does not hold back the first cut. */
  lemma NoCutHere(t: string, k: nat)
    requires k < |t| && FirstTopAmp(t, 0) >= k && !TopAmp(t, k)
    ensures FirstTopAmp(t, 0) >= k + 1
  {
  }

  lemma SliceExtend(block: string, j: nat, i: nat)
    requires j <= i < |block|
    ensures block[j..i + 1] == block[j..i] + [block[i]]
  {
  }

  /** At the end of the block the current piece is the last one. */
  lemma EndStep(block: string, total: seq<string>, j: nat, current: string, level: int, actions: seq<string>)
    requires SplitInv(block, total, j, |block|, current, level, actions)
    ensures total == if IsBlank(current) then actions else actions + [Strip(current)]
  {
    assert block[j..] == current;
    PiecesNone(current);
  }

  /**
   * `_split_actions`: reads the block one character at a time, counting
   * parentheses, and cuts at each `&` outside them.
   */
  method SplitActions(block: string) returns (actions: seq<string>)
    ensures actions == SplitSpec(block)
  {
    actions := [];
    var current: string := [];
    var level := 0;
    ghost var j := 0;
    ghost var total := SplitSpec(block);
    assert block[0..] == block;
    for i := 0 to |block|
      invariant SplitInv(block, total, j, i, current, level, actions)
    {
      var c := block[i];
      if c == '&' && level == 0 {
        CutStep(block, total, j, i, current, actions);
        var piece := Strip(current);
        if piece != [] {
          actions := actions + [piece];
        }
        current := [];
        j := i + 1;
      } else {
        KeepStep(block, total, j, i, current, level, actions);
        if c == '(' {
          level := level + 1;
        } else if c == ')' {
          level := level - 1;
        }
        current := current + [c];
      }
    }
    EndStep(block, total, j, current, level, actions);
    var piece := Strip(current);
    if piece != [] {
      actions := actions + [piece];
    }
  }

  /** Every piece returned is non-empty and stripped. */
  lemma SplitClean(block: string)
    ensures AllClean(SplitSpec(block))
  {
    NonBlankClean(Pieces(block));
  }

  /** A block with no `&` outside parentheses comes back whole, stripped, or not at all when blank. */
  lemma SplitKeepsNested(block: string)
    requires FirstTopAmp(block, 0) == |block|
    ensures SplitSpec(block) == if IsBlank(block) then [] else [Strip(block)]
  {
    PiecesNone(block);
  }

  /** The pieces joined with `&` give the block back: nothing is lost but the cut characters. */
  lemma {:induction false} JoinPieces(t: string)
    ensures Join(Pieces(t), "&") == t
    decreases |t|
  {
    var k := FirstTopAmp(t, 0);
    if k < |t| {
      var rest := Pieces(t[k + 1..]);
      JoinPieces(t[k + 1..]);
      assert Pieces(t) == [t[..k]] + rest;
      assert ([t[..k]] + rest)[1..] == rest;
      assert t == t[..k] + "&" + t[k + 1..];
    }
  }

  /** Cutting happens only at `&` characters outside parentheses; no piece holds such an `&`. */
  lemma {:induction false} PiecesHaveNoCut(t: string)
    ensures forall p :: p in Pieces(t) ==> FirstTopAmp(p, 0) == |p|
    decreases |t|
  {
    var k := FirstTopAmp(t, 0);
    if k < |t| {
      PiecesHaveNoCut(t[k + 1..]);
      PrefixHasNoCut(t, k);
      assert Pieces(t) == [t[..k]] + Pieces(t[k + 1..]);
    }
  }

  lemma PrefixHasNoCut(t: string, k: nat)
    requires k <= |t| && FirstTopAmp(t, 0) >= k
    ensures FirstTopAmp(t[..k], 0) == k
  {
    var p := t[..k];
    var f := FirstTopAmp(p, 0);
    if f < k {
      assert p[..f] == t[..f];
      assert TopAmp(t, f);
      assert false;
    }
  }

  // ---------------------------------------------------------------------
  // `_parse_action`
  // ---------------------------------------------------------------------

  /** `re.match(r"(\w+)\((.*)\)", text, re.DOTALL)`: the name, and the text up to the last `)`. */
  function MatchCall(text: string): (r: Option<(string, string)>)
    ensures r.Some? ==> |r.value.0| > 0 && |r.value.0| + |r.value.1| + 2 <= |text|
  {
    var n := WordRun(text);
    if n == 0 || n == |text| || text[n] != '(' then None
    else
      match LastIndexOf(text, ')')
      case None => None
      case Some(e) => if e <= n then None else Some((text[..n], text[n + 1..e]))
  }

  /** `int(s)` where Python catches ValueError and uses 1. */
  function CountOr1(s: string): int
  {
    match ParseInt(s)
    case Some(n) => n
    case None => 1
  }

  /**
   * `hotkey(key, c)`: after the last comma, a field that is not blank is the
   * count (1 where it is not an integer) and the key is the text before the
   * comma; otherwise the whole argument is the key.
   */
  function HotkeyArgs(arguments: string): (string, int)
  {
    match LastIndexOf(arguments, ',')
    case Some(i) =>
      if !IsBlank(arguments[i + 1..]) then (Strip(arguments[..i]), CountOr1(arguments[i + 1..]))
      else (Strip(arguments), 1)
    case None => (Strip(arguments), 1)
  }

  /**
   * `scroll(x, y, direction, c)`: with four or more comma fields the
   * argument becomes `"x,y,direction"` and the fourth field is the count.
   */
  function ScrollArgs(arguments: string): (string, int)
  {
    var parts := Split(arguments, ',');
    if |parts| >= 4 then (Strip(parts[0]) + "," + Strip(parts[1]) + "," + Strip(parts[2]), CountOr1(parts[3]))
    else (arguments, 1)
  }

  /** The argument and count of an action of kind `kind` read from its call's payload. */
  function ArgumentAndCount(kind: ActionType, arguments: string): (string, int)
  {
    if kind == Hotkey then HotkeyArgs(arguments)
    else if kind == Scroll then ScrollArgs(arguments)
    else (arguments, 1)
  }

  /**
   * `_parse_action`: None for text that is not a call or names no action
   * kind; the payload of `type` is kept as it is, every other payload is
   * stripped. A count below 1 fails the `Action` constraint, and that
   * ValidationError is not caught here.
   */
  function ParseAction(actionText: string): (r: Result<Option<Action>>)
    ensures r.Ok? && r.value.Some? ==> ValidAction(r.value.value)
    ensures r.Err? ==> r.error.ValidationError?
  {
    match MatchCall(Strip(actionText))
    case None => Ok(None)
    case Some((name, raw)) =>
      var kindName := Lower(name);
      var arguments := if kindName == "type" then raw else Strip(raw);
      match FromName(kindName)
      case None => Ok(None)
      case Some(kind) =>
        var (argument, count) := ArgumentAndCount(kind, arguments);
        match MakeAction(kind, argument, count)
        case Ok(a) => Ok(Some(a))
        case Err(e) => Err(e)
  }

  /**
   * How `_parse_action` reads a call: a name that is no action kind gives
   * None; `type` keeps its payload as it is; `hotkey` and `scroll` read their
   * count from the payload; every other kind has the stripped payload and
   * count 1.
   */
  lemma ParseActionCases(actionText: string, name: string, raw: string)
    requires MatchCall(Strip(actionText)) == Some((name, raw))
    ensures FromName(Lower(name)).None? ==> ParseAction(actionText) == Ok(None)
    ensures FromName(Lower(name)) == Some(Type) ==> ParseAction(actionText) == Ok(Some(Action(Type, raw, Some(1))))
    ensures var k := FromName(Lower(name));
      k.Some? && k.value != Type && k.value != Hotkey && k.value != Scroll ==>
        ParseAction(actionText) == Ok(Some(Action(k.value, Strip(raw), Some(1))))
    ensures FromName(Lower(name)) == Some(Hotkey) ==>
      var (key, count) := HotkeyArgs(Strip(raw));
      && (count >= 1 ==> ParseAction(actionText) == Ok(Some(Action(Hotkey, key, Some(count)))))
      && (count < 1 ==> ParseAction(actionText).Err?)
    ensures FromName(Lower(name)) == Some(Scroll) ==>
      var (arg, count) := ScrollArgs(Strip(raw));
      && (count >= 1 ==> ParseAction(actionText) == Ok(Some(Action(Scroll, arg, Some(count)))))
      && (count < 1 ==> ParseAction(actionText).Err?)
  {
    var k := FromName(Lower(name));
    if k.Some? {
      ParseActionOfKind(actionText, name, raw);
      KindActionCases(k.value, raw);
    }
  }

  /** The action `_parse_action` builds once the call's name is a kind. */
  function KindAction(kind: ActionType, raw: string): Result<Option<Action>>
  {
    var arguments := if kind == Type then raw else Strip(raw);
    var (argument, count) := ArgumentAndCount(kind, arguments);
    match MakeAction(kind, argument, count)
    case Ok(a) => Ok(Some(a))
    case Err(e) => Err(e)
  }

  /** A call whose name is a kind parses as that kind's action. */
  lemma ParseActionOfKind(actionText: string, name: string, raw: string)
    requires MatchCall(Strip(actionText)) == Some((name, raw)) && FromName(Lower(name)).Some?
    ensures ParseAction(actionText) == KindAction(FromName(Lower(name)).value, raw)
  {
    var k := FromName(Lower(name)).value;
    assert Name(k) == Lower(name);
    assert (Lower(name) == "type") == (k == Type);
  }

  /** The action built for each kind. */
  lemma KindActionCases(kind: ActionType, raw: string)
    ensures kind == Type ==> KindAction(kind, raw) == Ok(Some(Action(Type, raw, Some(1))))
    ensures kind != Type && kind != Hotkey && kind != Scroll ==> KindAction(kind, raw) == Ok(Some(Action(kind, Strip(raw), Some(1))))
    ensures kind == Hotkey ==>
      var (key, count) := HotkeyArgs(Strip(raw));
      && (count >= 1 ==> KindAction(kind, raw) == Ok(Some(Action(Hotkey, key, Some(count)))))
      && (count < 1 ==> KindAction(kind, raw).Err?)
    ensures kind == Scroll ==>
      var (arg, count) := ScrollArgs(Strip(raw));
      && (count >= 1 ==> KindAction(kind, raw) == Ok(Some(Action(Scroll, arg, Some(count)))))
      && (count < 1 ==> KindAction(kind, raw).Err?)
  {
  }

  /** `hotkey(key, c)`: the text after the last comma is the count and the key is the stripped text before it. */
  lemma HotkeyArgsOfCount(key: string, c: int)
    ensures HotkeyArgs(key + "," + IntToString(c)) == (Strip(key), c)
  {
    var d := IntToString(c);
    var s := key + "," + d;
    assert ',' !in d by {
      if c < 0 {
        assert d == "-" + NatToString(-c);
        assert forall i :: 1 <= i < |d| ==> IsDigit(d[i]);
      } else {
        assert AllDigits(d);
      }
    }
    assert s[|key|] == ',';
    var e := LastIndexOf(s, ',');
    assert e == Some(|key|);
    assert s[..|key|] == key && s[|key| + 1..] == d;
    ParseIntOfIntToString(c);
    StripIntText(c);
  }

  /** The text of an integer is not blank. */
  lemma StripIntText(c: int)
    ensures !IsBlank(IntToString(c))
  {
    var d := IntToString(c);
    if c < 0 {
      assert d[0] == '-';
    } else {
      assert IsDigit(d[0]);
    }
    assert IsDigit(d[|d| - 1]);
    StripNoop(d);
  }

  /** `hotkey(key)` with no comma: the stripped payload is the key, and the count is 1. */
  lemma HotkeyArgsWithoutComma(arguments: string)
    requires ',' !in arguments
    ensures HotkeyArgs(arguments) == (Strip(arguments), 1)
  {
  }

  /**
   * `scroll(x, y, direction, c)`: the first three fields, stripped and joined
   * by commas without spaces, become the argument, and the fourth field is
   * the count, or 1 when it is not an integer.
   */
  lemma ScrollArgsOfFields(x: string, y: string, dir: string, c: string)
    requires ',' !in x && ',' !in y && ',' !in dir && ',' !in c
    ensures ScrollArgs(x + "," + y + "," + dir + "," + c) == (Strip(x) + "," + Strip(y) + "," + Strip(dir), CountOr1(c))
    ensures ParseInt(c).None? ==> CountOr1(c) == 1
  {
    SplitFour(x, y, dir, c);
  }

  /** Four fields without commas, joined by commas, split back into those fields. */
  lemma SplitFour(x: string, y: string, dir: string, c: string)
    requires ',' !in x && ',' !in y && ',' !in dir && ',' !in c
    ensures Split(x + "," + y + "," + dir + "," + c, ',') == [x, y, dir, c]
  {
    var s := x + "," + y + "," + dir + "," + c;
    assert s == x + [','] + (y + [','] + (dir + [','] + c));
    SplitCons(x, ',', y + [','] + (dir + [','] + c));
    SplitCons(y, ',', dir + [','] + c);
    SplitCons(dir, ',', c);
    SplitNone(c, ',');
  }

  // ---------------------------------------------------------------------
  // `_parse_legacy_output`
  // ---------------------------------------------------------------------

  const ThinkStart := "<|think_start|>"
  const ThinkEnd := "<|think_end|>"
  const ActionStart := "<|action_start|>"
  const ActionEnd := "<|action_end|>"

  /**
   * `re.search(open + "(.*?)" + close, ..., re.DOTALL)`: the text of `s`
   * between the first `open` and the first `close` after it, both searched
   * for in `hay` (which is `s`, or `s` lower-cased for a case-insensitive
   * search).
   */
  function Between(hay: string, s: string, open: string, close: string): (r: Option<string>)
    requires |hay| == |s|
  {
    match FindFrom(hay, open, 0)
    case None => None
    case Some(i) =>
      match FindFrom(hay, close, i + |open|)
      case None => None
      case Some(j) => Some(s[i + |open|..j])
  }

  /** The lazy group stops at the first `close`: the text found never holds `close`. */
  lemma BetweenIsShortest(s: string, open: string, close: string)
    requires |close| > 0
    ensures var r := Between(s, s, open, close);
      r.Some? ==> forall k :: 0 <= k <= |r.value| - |close| ==> !OccursAt(r.value, close, k)
  {
    var r := Between(s, s, open, close);
    if r.Some? {
      var i := FindFrom(s, open, 0).value;
      var j := FindFrom(s, close, i + |open|).value;
      var g := r.value;
      assert g == s[i + |open|..j];
      forall k | 0 <= k <= |g| - |close| ensures !OccursAt(g, close, k) {
        if OccursAt(g, close, k) {
          SliceOccurs(s, i + |open|, j, close, k);
          assert false;
        }
      }
    }
  }

  /** An occurrence inside a slice is an occurrence in the whole text. */
  lemma SliceOccurs(s: string, a: nat, b: nat, pat: string, k: nat)
    requires a <= b <= |s| && OccursAt(s[a..b], pat, k)
    ensures OccursAt(s, pat, a + k)
  {
    forall m | 0 <= m < |pat| ensures s[a + k + m] == pat[m] {
      assert s[a..b][k..k + |pat|][m] == pat[m];
    }
    assert s[a + k..a + k + |pat|] == pat;
  }

  /** The actions parsed from the pieces in order; the first validation error aborts the parse. */
  function ParseAll(texts: seq<string>): (r: Result<seq<Action>>)
  {
    if |texts| == 0 then Ok([])
    else
      match ParseAll(texts[..|texts| - 1])
      case Err(e) => Err(e)
      case Ok(actions) =>
        match ParseAction(texts[|texts| - 1])
        case Err(e) => Err(e)
        case Ok(p) => Ok(if p.Some? then actions + [p.value] else actions)
  }

  /** Every action `ParseAll` returns satisfies the `Action` constraint. */
  lemma {:induction false} ParseAllValid(texts: seq<string>)
    ensures ParseAll(texts).Ok? ==> forall k :: 0 <= k < |ParseAll(texts).value| ==> ValidAction(ParseAll(texts).value[k])
  {
    if |texts| > 0 {
      ParseAllValid(texts[..|texts| - 1]);
    }
  }

  /** An error in a prefix of the pieces is the error of the whole parse. */
  lemma {:induction false} ParseAllPrefixError(texts: seq<string>, k: nat)
    requires k <= |texts| && ParseAll(texts[..k]).Err?
    ensures ParseAll(texts) == ParseAll(texts[..k])
    decreases |texts| - k
  {
    if k < |texts| {
      assert texts[..k + 1][..k] == texts[..k];
      ParseAllPrefixError(texts, k + 1);
    } else {
      assert texts[..k] == texts;
    }
  }

  /** What `_parse_legacy_output` returns. */
  function LegacyOutput(raw: string): Result<Step>
  {
    var reason := match Between(raw, raw, ThinkStart, ThinkEnd) case Some(g) => Strip(g) case None => "";
    var texts := match Between(raw, raw, ActionStart, ActionEnd) case Some(b) => SplitSpec(Strip(b)) case None => [];
    match ParseAll(texts)
    case Err(e) => Err(e)
    case Ok(actions) => Ok(Step(reason, actions, HasTerminal(actions)))
  }

  /** Adding an action adds a terminal exactly when the new action is one. */
  lemma HasTerminalPush(actions: seq<Action>, a: Action)
    ensures HasTerminal(actions + [a]) <==> HasTerminal(actions) || IsTerminal(a.kind)
  {
    assert (actions + [a])[|actions|] == a;
    forall k | 0 <= k < |actions| ensures (actions + [a])[k] == actions[k] { }
  }

  /** One more piece extends the parse by what `_parse_action` makes of it. */
  lemma ParseAllPush(texts: seq<string>, i: nat)
    requires i < |texts|
    ensures ParseAll(texts[..i + 1]) == match ParseAll(texts[..i])
      case Err(e) => Err(e)
      case Ok(actions) =>
        match ParseAction(texts[i])
        case Err(e) => Err(e)
        case Ok(p) => Ok(if p.Some? then actions + [p.value] else actions)
  {
    assert texts[..i + 1][..i] == texts[..i];
  }

  /**
   * The loop of `_parse_legacy_output` over the split pieces: each piece that
   * parses is appended, and `stop` is set by the first FINISH or FAIL.
   */
  method ParsePieces(texts: seq<string>) returns (r: Result<seq<Action>>, stop: bool)
    ensures r == ParseAll(texts)
    ensures r.Ok? ==> (stop <==> HasTerminal(r.value))
  {
    var actions: seq<Action> := [];
    stop := false;
    for i := 0 to |texts|
      invariant ParseAll(texts[..i]) == Ok(actions)
      invariant stop <==> HasTerminal(actions)
    {
      ParseAllPush(texts, i);
      var parsed := ParseAction(texts[i]);
      if parsed.Err? {
        ParseAllPrefixError(texts, i + 1);
        return Err(parsed.error), stop;
      }
      if parsed.value.Some? {
        var a := parsed.value.value;
        HasTerminalPush(actions, a);
        actions := actions + [a];
        if IsTerminal(a.kind) {
          stop := true;
        }
      }
    }
    assert texts[..|texts|] == texts;
    return Ok(actions), stop;
  }

  /**
   * `_parse_legacy_output`: the reasoning between the think tags, and the
   * actions of the action block, parsed one by one; `stop` is set by the
   * first FINISH or FAIL.
   */
  method ParseLegacyOutput(raw: string) returns (r: Result<Step>)
    ensures r == LegacyOutput(raw)
    ensures r.Ok? ==> (r.value.stop <==> exists k :: 0 <= k < |r.value.actions| && IsTerminal(r.value.actions[k].kind))
    ensures r.Ok? ==> forall k :: 0 <= k < |r.value.actions| ==> ValidAction(r.value.actions[k])
  {
    var think := Between(raw, raw, ThinkStart, ThinkEnd);
    var reason := if think.Some? then Strip(think.value) else "";
    var texts: seq<string> := [];
    var block := Between(raw, raw, ActionStart, ActionEnd);
    if block.Some? {
      texts := SplitActions(Strip(block.value));
    }
    var parsed, stop := ParsePieces(texts);
    ParseAllValid(texts);
    if parsed.Err? {
      return Err(parsed.error);
    }
    return Ok(Step(reason, parsed.value, stop));
  }

  // ---------------------------------------------------------------------
  // `_parse_qwen3_output`: `<think>`, the `Action:` line, `<tool_call>` blocks
  // ---------------------------------------------------------------------

  const ThinkOpen := "<think>"
  const ThinkClose := "</think>"
  const ToolCallOpen := "<tool_call>"
  const ToolCallClose := "</tool_call>"

  /** The first position at or after `i` that is not white space: where a greedy `\s*` stops. */
  function SkipSpace(s: string, i: nat): (j: nat)
    requires i <= |s|
    ensures i <= j <= |s|
    ensures j < |s| ==> !IsSpace(s[j])
    ensures forall k :: i <= k < j ==> IsSpace(s[k])
    decreases |s| - i
  {
    if i == |s| || !IsSpace(s[i]) then i else SkipSpace(s, i + 1)
  }

  /** The end of the line holding position `i`: the next newline, or the end of the text. */
  function LineEnd(s: string, i: nat): (j: nat)
    requires i <= |s|
    ensures i <= j <= |s|
    ensures j < |s| ==> s[j] == '\n'
    ensures forall k :: i <= k < j ==> s[k] != '\n'
    decreases |s| - i
  {
    if i == |s| || s[i] == '\n' then i else LineEnd(s, i + 1)
  }

  /**
   * `^\s*Action\s*:\s*(.+)$` tried at the line start `p` (multi-line mode),
   * with the group stripped. The leading `\s*` may cross blank lines. When
   * nothing but white space follows the colon, the group can only be white
   * space (stripped to ""), and the match fails where that white space is
   * all newlines.
   */
  function SummaryAt(s: string, p: nat): (r: Option<string>)
    requires p <= |s|
    ensures r.Some? ==> Strip(r.value) == r.value
  {
    var q := SkipSpace(s, p);
    if !OccursAt(s, "Action", q) then None
    else
      var c := SkipSpace(s, q + 6);
      if c == |s| || s[c] != ':' then None
      else
        var t := SkipSpace(s, c + 1);
        if t < |s| then
          var line := s[t..LineEnd(s, t)];
          StripIdempotent(line);
          Some(Strip(line))
        else if exists u :: c + 1 <= u < |s| && s[u] != '\n' then Some("")
        else None
  }

  /** `re.search` of the summary pattern: the first line start, from `p` on, where it matches. */
  function SummaryFrom(s: string, p: nat): (r: Option<string>)
    requires p <= |s|
    ensures r.Some? ==> Strip(r.value) == r.value
    decreases |s| - p
  {
    var found := if p == 0 || s[p - 1] == '\n' then SummaryAt(s, p) else None;
    if found.Some? then found
    else if p == |s| then None
    else SummaryFrom(s, p + 1)
  }

  /** `_extract_action_summary`: the stripped text of the first `Action:` line, or "". */
  function ActionSummary(raw: string): (r: string)
    ensures Strip(r) == r
  {
    match SummaryFrom(raw, 0)
    case Some(g) => g
    case None => ""
  }

  /** A summary line at the head of the output is read back as it was written. */
  lemma ActionSummaryOfLine(a: string, rest: string)
    requires Clean(a) && forall k :: 0 <= k < |a| ==> a[k] != '\n'
    requires rest == [] || rest[0] == '\n'
    ensures ActionSummary("Action: " + a + rest) == a
  {
    var s := "Action: " + a + rest;
    assert s[..6] == "Action" && s[6] == ':' && s[7] == ' ' && s[8] == a[0];
    assert OccursAt(s, "Action", 0);
    assert SkipSpace(s, 0) == 0;
    assert SkipSpace(s, 6) == 6;
    assert SkipSpace(s, 8) == 8;
    assert SkipSpace(s, 7) == 8;
    var e := LineEnd(s, 8);
    forall k | 8 <= k < 8 + |a| ensures s[k] != '\n' {
      assert s[k] == a[k - 8];
    }
    assert 8 + |a| < |s| ==> s[8 + |a|] == '\n';
    assert e == 8 + |a|;
    assert s[8..e] == a;
  }

  /**
   * `_strip_code_fence`: a payload wrapped in a Markdown fence loses the
   * opening backticks with an optional `json` tag (any case) and the white
   * space after them, and the closing backticks with the white space before
   * them.
   */
  function StripCodeFence(text: string): (r: string)
    ensures Strip(r) == r
  {
    var stripped := Strip(text);
    var inner := if StartsWith(stripped, "```") then DropClosingFence(FenceBody(stripped)) else stripped;
    StripIdempotent(inner);
    Strip(inner)
  }

  /** `re.sub(r"^```(?:json)?\s*", "", s, flags=re.IGNORECASE)` on text that starts with the fence. */
  function FenceBody(stripped: string): string
    requires StartsWith(stripped, "```")
  {
    var rest := stripped[3..];
    LStrip(if |rest| >= 4 && Lower(rest[..4]) == "json" then rest[4..] else rest)
  }

  /** `re.sub(r"\s*```$", "", s)` on text with no white space at its end. */
  function DropClosingFence(body: string): string
  {
    if EndsWith(body, "```") then RStrip(body[..|body| - 3]) else body
  }

  /** A fenced, `json`-tagged payload comes out of the fence as it went in. */
  lemma StripCodeFenceOfFenced(body: string)
    requires Clean(body)
    ensures StripCodeFence("```json\n" + body + "\n```") == body
  {
    var b := body + "\n```";
    var text := "```json\n" + b;
    assert "```json\n" + body + "\n```" == text;
    assert !IsSpace(text[0]) && !IsSpace(text[|text| - 1]);
    StripNoop(text);
    FenceBodyJson(b);
    DropClosingFenceOf(body);
    StripNoop(body);
  }

  lemma FenceBodyJson(b: string)
    requires |b| > 0 && !IsSpace(b[0])
    ensures StartsWith("```json\n" + b, "```") && FenceBody("```json\n" + b) == b
  {
    var text := "```json\n" + b;
    var rest := text[3..];
    assert rest[..4] == "json";
    assert Lower("json") == "json";
    assert rest[4..] == "\n" + b;
    assert ("\n" + b)[1..] == b;
    assert IsSpace('\n');
    assert LStrip(b) == b;
  }

  lemma DropClosingFenceOf(body: string)
    requires Clean(body)
    ensures DropClosingFence(body + "\n```") == body
  {
    var b := body + "\n```";
    assert b[|b| - 3..] == "```";
    assert b[..|b| - 3] == body + "\n";
    assert (body + "\n")[..|body|] == body;
    StripNoop(body);
  }

  /** A payload with no fence is only stripped. */
  lemma StripCodeFenceUnfenced(text: string)
    requires Clean(text) && !StartsWith(text, "```")
    ensures StripCodeFence(text) == text
  {
  }

  /**
   * `re.findall(r"<tool_call>\s*(.*?)\s*</tool_call>", ..., DOTALL | IGNORECASE)`
   * from position `from`: each block runs from an opening tag to the first
   * closing tag after it, and its content is stripped by the two `\s*`.
   * The tags are searched for in `low`, the lower-cased output.
   */
  function ToolCallContents(low: string, raw: string, from: nat): (contents: seq<string>)
    requires |low| == |raw| && from <= |raw|
    ensures forall k :: 0 <= k < |contents| ==> Strip(contents[k]) == contents[k]
    decreases |raw| - from
  {
    match FindFrom(low, ToolCallOpen, from)
    case None => []
    case Some(i) =>
      match FindFrom(low, ToolCallClose, i + |ToolCallOpen|)
      case None => []
      case Some(j) =>
        var content := raw[i + |ToolCallOpen|..j];
        StripIdempotent(content);
        [Strip(content)] + ToolCallContents(low, raw, j + |ToolCallClose|)
  }

  /** Lower-casing never makes a `<` out of another character. */
  lemma LowerKeepsAngle(s: string, k: nat)
    requires k < |s|
    ensures Lower(s)[k] == '<' <==> s[k] == '<'
  {
  }

  lemma LowerConcat(a: string, b: string)
    ensures Lower(a + b) == Lower(a) + Lower(b)
  {
  }

  lemma LowerTags()
    ensures Lower(ToolCallOpen) == ToolCallOpen && Lower(ToolCallClose) == ToolCallClose
  {
  }

  /** The first occurrence at or after `from` is where `FindFrom` stops. */
  lemma {:induction false} FindFromFirst(s: string, pat: string, from: nat, e: nat)
    requires from <= e <= |s| && OccursAt(s, pat, e)
    requires forall j :: from <= j < e ==> !OccursAt(s, pat, j)
    ensures FindFrom(s, pat, from) == Some(e)
    decreases e - from
  {
    if from < e {
      FindFromFirst(s, pat, from + 1, e);
    }
  }

  /** A tag, which begins with `<`, cannot start where there is no `<`. */
  lemma TagNeedsAngle(s: string, pat: string, j: nat)
    requires |pat| > 0 && pat[0] == '<' && j < |s| && s[j] != '<'
    ensures !OccursAt(s, pat, j)
  {
  }

  /** A block with no `<` inside, between the two tags, is the only content found. */
  lemma ToolCallContentsSingle(body: string)
    requires Clean(body) && forall k :: 0 <= k < |body| ==> body[k] != '<'
    ensures var raw := ToolCallOpen + body + ToolCallClose;
      ToolCallContents(Lower(raw), raw, 0) == [body]
  {
    var raw := ToolCallOpen + body + ToolCallClose;
    LowerConcat(ToolCallOpen, body);
    LowerConcat(ToolCallOpen + body, ToolCallClose);
    LowerTags();
    ContentsOfTagged(ToolCallOpen + Lower(body) + ToolCallClose, raw, body);
  }

  /** The blocks of the tagged text, searched in its lower-cased copy. */
  lemma ContentsOfTagged(low: string, raw: string, body: string)
    requires Clean(body) && forall k :: 0 <= k < |body| ==> body[k] != '<'
    requires raw == ToolCallOpen + body + ToolCallClose && low == ToolCallOpen + Lower(body) + ToolCallClose
    ensures ToolCallContents(low, raw, 0) == [body]
  {
    var n := |ToolCallOpen|;
    var e := n + |body|;
    TagsAround(Lower(body), body);
    FindFromFirst(low, ToolCallOpen, 0, 0);
    FindFromFirst(low, ToolCallClose, n, e);
    assert raw[n..e] == body;
    StripNoop(body);
    ContentsAtEnd(low, raw);
  }

  /** No block starts at the end of the text. */
  lemma ContentsAtEnd(low: string, raw: string)
    requires |low| == |raw|
    ensures ToolCallContents(low, raw, |raw|) == []
  {
  }


  /** Where the two tags lie around a lower-cased body with no `<`. */
  lemma TagsAround(lb: string, body: string)
    requires lb == Lower(body) && forall k :: 0 <= k < |body| ==> body[k] != '<'
    ensures var low := ToolCallOpen + lb + ToolCallClose;
      var n := |ToolCallOpen|;
      && OccursAt(low, ToolCallOpen, 0)
      && OccursAt(low, ToolCallClose, n + |lb|)
      && forall j :: n <= j < n + |lb| ==> !OccursAt(low, ToolCallClose, j)
  {
    var low := ToolCallOpen + lb + ToolCallClose;
    var n := |ToolCallOpen|;
    assert low[..n] == ToolCallOpen;
    assert low[n + |lb|..n + |lb| + |ToolCallClose|] == ToolCallClose;
    forall j | n <= j < n + |lb| ensures !OccursAt(low, ToolCallClose, j) {
      assert low[j] == lb[j - n];
      TagNeedsAngle(low, ToolCallClose, j);
    }
  }

  /** Without an opening tag (in any case) there is no block. */
  lemma ToolCallContentsNone(low: string, raw: string)
    requires |low| == |raw| && !Contains(low, ToolCallOpen)
    ensures ToolCallContents(low, raw, 0) == []
  {
  }

  /** `_parse_tool_call_json`: the decoded object, or None for malformed JSON or a non-object. */
  function ToolCallObject(content: string, decode: string -> Option<Json>): (r: Option<seq<(string, Json)>>)
  {
    match decode(StripCodeFence(content))
    case Some(JObj(fields)) => Some(fields)
    case _ => None
  }

  /** `_coerce_positive_int(value, default=1)`: `max(int(value), 1)`, and 1 where `int` raises. */
  function CoercePositiveInt(value: Option<Json>): (n: int)
    ensures n >= 1
    ensures value.Some? && PyInt(value.value).Some? && PyInt(value.value).value >= 1 ==> n == PyInt(value.value).value
    ensures value.Some? && PyInt(value.value).Some? && PyInt(value.value).value < 1 ==> n == 1
    ensures value.None? || PyInt(value.value).None? ==> n == 1
  {
    if value.None? then 1
    else
      match PyInt(value.value)
      case None => 1
      case Some(i) => if i < 1 then 1 else i
  }

  /** `_coerce_float(value, default)`: `float(value)`, or the default where `float` raises. */
  function CoerceFloat(value: Option<Json>, default: Decimals.Decimal): (d: Decimals.Decimal)
    ensures value.Some? && PyFloat(value.value).Some? ==> d == PyFloat(value.value).value
    ensures value.None? || PyFloat(value.value).None? ==> d == default
  {
    if value.None? then default
    else
      match PyFloat(value.value)
      case None => default
      case Some(f) => f
  }

  /**
   * `_extract_keys`: a list gives its entries as stripped text, blanks
   * dropped; a string is split at `+` and `,`, blanks dropped; anything else
   * gives no key.
   */
  function ExtractKeys(raw: Option<Json>): (keys: seq<string>)
    ensures AllClean(keys)
    ensures raw.Some? && raw.value.JArr? ==> var items := raw.value.items;
      forall k :: k in keys <==> k != [] && exists i :: 0 <= i < |items| && StrippedStr(items[i]) == k
    ensures raw.Some? && raw.value.JStr? ==> var parts := KeyPieces(raw.value.s);
      forall k :: k in keys <==> exists i :: 0 <= i < |parts| && !IsBlank(parts[i]) && Strip(parts[i]) == k
    ensures raw.None? || !(raw.value.JArr? || raw.value.JStr?) ==> keys == []
  {
    if raw.Some? && raw.value.JArr? then
      NonBlankStrsClean(raw.value.items);
      NonBlankStrsMember(raw.value.items);
      NonBlankStrs(raw.value.items)
    else if raw.Some? && raw.value.JStr? then
      NonBlankClean(KeyPieces(raw.value.s));
      NonBlankMember(KeyPieces(raw.value.s));
      NonBlank(KeyPieces(raw.value.s))
    else []
  }

  /** `re.split(r"[+,]", raw_keys)` */
  function KeyPieces(s: string): (parts: seq<string>)
    ensures |parts| >= 1
  {
    SplitOn(s, {'+', ','})
  }

  /** Listed keys come back in their order: the keys of `a + b` are those of `a`, then those of `b`. */
  lemma ExtractKeysListOrder(a: seq<Json>, b: seq<Json>)
    ensures ExtractKeys(Some(JArr(a + b))) == ExtractKeys(Some(JArr(a))) + ExtractKeys(Some(JArr(b)))
  {
    NonBlankStrsAppend(a, b);
  }

  /**
   * A key string is read piece by piece, in order: a first piece without
   * `+` or `,`, then a separator, gives that piece stripped (unless blank)
   * before the keys of the rest.
   */
  lemma ExtractKeysTextOrder(first: string, sep: char, rest: string)
    requires sep == '+' || sep == ','
    requires forall i :: 0 <= i < |first| ==> first[i] != '+' && first[i] != ','
    ensures ExtractKeys(Some(JStr(first + [sep] + rest)))
      == (if IsBlank(first) then [] else [Strip(first)]) + ExtractKeys(Some(JStr(rest)))
  {
    SplitOnCons(first, sep, rest, {'+', ','});
    NonBlankAppend([first], KeyPieces(rest));
  }

  /** `int(raw_count)` where the count is a number (a bool counts as one), else 1. */
  function SignedCount(raw: Json): int
  {
    match raw
    case JInt(i) => i
    case JBool(b) => if b then 1 else 0
    case JFloat(d) => Decimals.Trunc(d)
    case _ => 1
  }

  /**
   * `_parse_scroll_direction_and_count`: a direction other than up or down
   * is replaced by the sign of the count, and the count is its magnitude,
   * at least 1.
   */
  function ScrollDirectionAndCount(args: seq<(string, Json)>): (r: (string, int))
    ensures r.0 == "up" || r.0 == "down"
    ensures r.1 >= 1
    ensures var given := Lower(StrippedStr(GetOr(args, "direction", JStr(""))));
      var signed := SignedCount(GetOr(args, "count", JInt(1)));
      && (given == "up" || given == "down" ==> r.0 == given)
      && (given != "up" && given != "down" ==> (r.0 == "down" <==> signed < 0))
      && (signed != 0 ==> r.1 == Decimals.Abs(signed))
      && (signed == 0 ==> r.1 == 1)
  {
    var given := Lower(StrippedStr(GetOr(args, "direction", JStr(""))));
    var signed := SignedCount(GetOr(args, "count", JInt(1)));
    var direction := if given == "up" || given == "down" then given else if signed < 0 then "down" else "up";
    (direction, if signed == 0 then 1 else Decimals.Abs(signed))
  }

  /** `f"{x}, {y}"` for any integers. */
  function PointText(x: int, y: int): string
  {
    IntToString(x) + ", " + IntToString(y)
  }

  /** For a point with non-negative coordinates, `parse_coords` reads the argument back. */
  lemma PointTextReadsBack(x: int, y: int)
    requires x >= 0 && y >= 0
    ensures ParseCoords(PointText(x, y)) == Some((x, y))
  {
    assert PointText(x, y) == CoordsText(x, y) + [];
    ParseCoordsOfText(x, y, []);
  }

  /** The tool-call actions that name a point, and the action type of each. */
  const PointActions: map<string, ActionType> := map[
    "mouse_move" := MouseMove,
    "left_click" := Click,
    "right_click" := RightSingle,
    "double_click" := LeftDouble,
    "triple_click" := LeftTriple,
    "left_click_drag" := LeftClickDrag]

  /** The keys, click type and point of a `press_click` call; None without a point or a known click type. */
  function PressClickFields(args: seq<(string, Json)>): (r: Option<PressClickArgs>)
    ensures r.Some? ==> r.value.clickType in ClickTypes && AllClean(r.value.keys)
  {
    match CoordinatePair(Get(args, "coordinate"))
    case None => None
    case Some((x, y)) =>
      var clickType := ClickTypeOf(args);
      if clickType !in ClickTypes then None
      else Some(PressClickArgs(ExtractKeys(Get(args, "keys")), clickType, x, y))
  }

  /** The argument of a PRESS_CLICK action: the compact JSON of its keys, click type and point. */
  function PressClickArgument(p: PressClickArgs): string
  {
    Dumps(PressClickPayload(p.keys, p.clickType, p.x, p.y))
  }

  /**
   * What the tool-call parser writes for `press_click`, `parse_press_click`
   * reads back unchanged, given a JSON decoder that reads the written text
   * back as the object it came from.
   */
  lemma PressClickReadsBack(args: seq<(string, Json)>, decode: string -> Option<Json>)
    requires PressClickFields(args).Some?
    requires var p := PressClickFields(args).value;
      decode(PressClickArgument(p)) == Some(PressClickPayload(p.keys, p.clickType, p.x, p.y))
    ensures ParsePressClick(decode(PressClickArgument(PressClickFields(args).value))) == PressClickFields(args)
  {
    var p := PressClickFields(args).value;
    ParsePressClickOfPayload(p.keys, p.clickType, p.x, p.y);
  }

  /** The lower-cased, stripped `action` name of a tool call's arguments. */
  function ActionName(args: seq<(string, Json)>): string
  {
    Lower(StrippedStr(GetOr(args, "action", JStr(""))))
  }

  /** The lower-cased, stripped status of a `terminate` call; "success" when absent. */
  function TerminateStatus(args: seq<(string, Json)>): string
  {
    Lower(StrippedStr(GetOr(args, "status", JStr("success"))))
  }

  /** `key`: the keys joined by `+`; None without a key. */
  function KeyAction(args: seq<(string, Json)>, count: int): Option<Action>
  {
    var keys := ExtractKeys(Get(args, "keys"));
    if keys == [] then None else Some(Action(Hotkey, Join(keys, "+"), Some(count)))
  }

  /** A point action of kind `kind`: `"x, y"`; None without a point. */
  function PointAction(args: seq<(string, Json)>, kind: ActionType, count: int): Option<Action>
  {
    match CoordinatePair(Get(args, "coordinate"))
    case None => None
    case Some((x, y)) => Some(Action(kind, PointText(x, y), Some(count)))
  }

  /** `scroll`: the point (500, 500 when absent), the direction, and the scroll count. */
  function ScrollAction(args: seq<(string, Json)>): Action
  {
    var c := CoordinatePair(Get(args, "coordinate"));
    var (x, y) := if c.Some? then c.value else (500, 500);
    var (direction, n) := ScrollDirectionAndCount(args);
    Action(Scroll, PointText(x, y) + ", " + direction, Some(n))
  }

  /** The action a tool call's arguments describe, by the `action` name; None for an unusable call. */
  function ArgumentsAction(args: seq<(string, Json)>): (r: Option<Action>)
    ensures r.Some? ==> ValidAction(r.value)
    ensures ActionName(args) == "" ==> r.None?
  {
    var name := ActionName(args);
    var count := CoercePositiveInt(Get(args, "count"));
    if name == "" then None
    else if name == "key" then KeyAction(args, count)
    else if name == "type" then Some(Action(Type, PyStr(GetOr(args, "text", JStr(""))), Some(count)))
    else if name in PointActions then PointAction(args, PointActions[name], count)
    else if name == "press_click" then
      match PressClickFields(args)
      case None => None
      case Some(p) => Some(Action(PressClick, PressClickArgument(p), Some(count)))
    else if name == "scroll" then Some(ScrollAction(args))
    else if name == "wait" then
      Some(Action(Wait, Decimals.Repr(CoerceFloat(Get(args, "time"), Decimals.FromInt(1))), Some(1)))
    else if name == "terminate" then
      Some(Action(if TerminateStatus(args) == "failure" then Fail else Finish, "", Some(1)))
    else None
  }

  /** The `arguments` of a tool call as an object: a string is decoded first. */
  function ToolArguments(raw: Option<Json>, decode: string -> Option<Json>): (r: Option<seq<(string, Json)>>)
  {
    if raw.None? then None
    else
      var v := if raw.value.JStr? then decode(raw.value.s) else raw;
      if v.Some? && v.value.JObj? then Some(v.value.fields) else None
  }

  /** `str(call.get("name", "")).strip()` */
  function ToolName(call: seq<(string, Json)>): string
  {
    StrippedStr(GetOr(call, "name", JStr("")))
  }

  /**
   * `_parse_qwen3_tool_call`: a call naming a tool other than
   * `computer_use` is dropped, and so is one whose arguments are not an
   * object.
   */
  function ToolCallAction(call: seq<(string, Json)>, decode: string -> Option<Json>): (r: Option<Action>)
    ensures r.Some? ==> ValidAction(r.value)
    ensures ToolName(call) != "" && ToolName(call) != "computer_use" ==> r.None?
  {
    var name := ToolName(call);
    if name != "" && name != "computer_use" then None
    else
      match ToolArguments(Get(call, "arguments"), decode)
      case None => None
      case Some(args) => ArgumentsAction(args)
  }

  /** `terminate` always ends the task: FAIL exactly when the status reads "failure", FINISH otherwise. */
  lemma TerminateMapping(args: seq<(string, Json)>)
    requires ActionName(args) == "terminate"
    ensures var r := ArgumentsAction(args);
      && r.Some? && IsTerminal(r.value.kind) && r.value.argument == ""
      && (r.value.kind == Fail <==> TerminateStatus(args) == "failure")
  {
    NotPointAction("terminate");
  }

  /** Every point action names its point in the form `parse_coords` reads, for non-negative coordinates. */
  lemma PointActionReadsBack(args: seq<(string, Json)>)
    requires ActionName(args) in PointActions
    requires var c := CoordinatePair(Get(args, "coordinate")); c.Some? && c.value.0 >= 0 && c.value.1 >= 0
    ensures var r := ArgumentsAction(args);
      && r.Some? && r.value.kind == PointActions[ActionName(args)]
      && ParseCoords(r.value.argument) == CoordinatePair(Get(args, "coordinate"))
  {
    var c := CoordinatePair(Get(args, "coordinate")).value;
    PointDispatch(args);
    PointTextReadsBack(c.0, c.1);
  }

  /** The point action names are none of the names tested before them. */
  lemma PointActionNames(name: string)
    requires name in PointActions
    ensures name != "" && name != "key" && name != "type"
    ensures !IsTerminal(PointActions[name])
  {
  }

  /** A name tested after the point actions is not one of them. */
  lemma NotPointAction(name: string)
    requires name == "press_click" || name == "scroll" || name == "wait" || name == "terminate"
    ensures name !in PointActions && name != "" && name != "key" && name != "type"
  {
  }

  /**
   * A scroll call always yields an argument `parse_scroll` accepts (given
   * non-negative coordinates), with direction up or down and a count of at
   * least 1.
   */
  lemma ScrollActionReadsBack(args: seq<(string, Json)>)
    requires ActionName(args) == "scroll"
    requires var c := CoordinatePair(Get(args, "coordinate")); c.None? || (c.value.0 >= 0 && c.value.1 >= 0)
    ensures var r := ArgumentsAction(args);
      var c := CoordinatePair(Get(args, "coordinate"));
      var (x, y) := if c.Some? then c.value else (500, 500);
      && r.Some? && r.value.kind == Scroll
      && ParseScroll(r.value.argument) == Some((x, y, ScrollDirectionAndCount(args).0))
      && r.value.count == Some(ScrollDirectionAndCount(args).1)
  {
    var c := CoordinatePair(Get(args, "coordinate"));
    var (x, y) := if c.Some? then c.value else (500, 500);
    ScrollDispatch(args);
    ScrollTextReadsBack(x, y, ScrollDirectionAndCount(args).0);
  }

  lemma ScrollTextReadsBack(x: int, y: int, dir: string)
    requires x >= 0 && y >= 0 && (dir == "up" || dir == "down")
    ensures ParseScroll(PointText(x, y) + ", " + dir) == Some((x, y, dir))
  {
    assert PointText(x, y) + ", " + dir == ScrollText(x, y, dir);
    UpDownWords(dir);
    ParseScrollOfText(x, y, dir);
  }

  lemma UpDownWords(dir: string)
    requires dir == "up" || dir == "down"
    ensures |dir| > 0 && (forall k :: 0 <= k < |dir| ==> IsWordChar(dir[k])) && Lower(dir) == dir
  {
  }

  lemma ScrollDispatch(args: seq<(string, Json)>)
    requires ActionName(args) == "scroll"
    ensures ArgumentsAction(args) == Some(ScrollAction(args))
  {
    NotPointAction("scroll");
  }

  /** The actions of the tool-call blocks in order; a block that does not decode or convert is skipped. */
  function ToolCallActions(contents: seq<string>, decode: string -> Option<Json>): (actions: seq<Action>)
    ensures forall k :: 0 <= k < |actions| ==> ValidAction(actions[k])
  {
    if |contents| == 0 then []
    else
      var init := ToolCallActions(contents[..|contents| - 1], decode);
      match ToolCallObject(contents[|contents| - 1], decode)
      case None => init
      case Some(call) =>
        match ToolCallAction(call, decode)
        case None => init
        case Some(a) => init + [a]
  }

  /** A block whose JSON does not decode adds no action. */
  lemma MalformedBlockSkipped(contents: seq<string>, content: string, decode: string -> Option<Json>)
    requires decode(StripCodeFence(content)).None?
    ensures ToolCallActions(contents + [content], decode) == ToolCallActions(contents, decode)
  {
    assert (contents + [content])[..|contents|] == contents;
  }

  /** The last block decides whether `ToolCallActions` grows by one action. */
  lemma ToolCallActionsPush(contents: seq<string>, i: nat, decode: string -> Option<Json>)
    requires i < |contents|
    ensures var init := ToolCallActions(contents[..i], decode);
      ToolCallActions(contents[..i + 1], decode) ==
        match ToolCallObject(contents[i], decode)
        case None => init
        case Some(call) => (match ToolCallAction(call, decode) case None => init case Some(a) => init + [a])
  {
    assert contents[..i + 1][..i] == contents[..i];
  }

  /** The loop of `_parse_qwen3_output` over the blocks: each block that decodes and converts adds its action. */
  method CollectToolCallActions(contents: seq<string>, decode: string -> Option<Json>) returns (actions: seq<Action>)
    ensures actions == ToolCallActions(contents, decode)
  {
    actions := [];
    for i := 0 to |contents|
      invariant actions == ToolCallActions(contents[..i], decode)
    {
      ToolCallActionsPush(contents, i, decode);
      var call := ToolCallObject(contents[i], decode);
      if call.Some? {
        var parsed := ToolCallAction(call.value, decode);
        if parsed.Some? {
          actions := actions + [parsed.value];
        }
      }
    }
    assert contents[..|contents|] == contents;
  }

  /** What `_parse_qwen3_output` returns. */
  function Qwen3Output(raw: string, decode: string -> Option<Json>): (step: Step)
    ensures step.stop <==> HasTerminal(step.actions)
  {
    var low := Lower(raw);
    var think := Between(low, raw, ThinkOpen, ThinkClose);
    var reason := if think.Some? then Strip(think.value) else "";
    var actions := ToolCallActions(ToolCallContents(low, raw, 0), decode);
    Step(if reason == "" then ActionSummary(raw) else reason, actions, HasTerminal(actions))
  }

  /** The reason or the actions make a step worth returning in auto mode. */
  predicate Productive(step: Step)
  {
    step.reason != "" || step.actions != []
  }

  /**
   * `_parse_qwen3_output`: the reason is the stripped think block, else the
   * `Action:` summary; each tool-call block is decoded and converted in
   * turn, and `stop` is set when some action is FINISH or FAIL.
   */
  method ParseQwen3Output(raw: string, decode: string -> Option<Json>) returns (step: Step)
    ensures step == Qwen3Output(raw, decode)
    ensures step.stop <==> exists k :: 0 <= k < |step.actions| && IsTerminal(step.actions[k].kind)
    ensures forall k :: 0 <= k < |step.actions| ==> ValidAction(step.actions[k])
  {
    var low := Lower(raw);
    var think := Between(low, raw, ThinkOpen, ThinkClose);
    var reason := if think.Some? then Strip(think.value) else "";
    var summary := ActionSummary(raw);
    if reason == "" && summary != "" {
      reason := summary;
    }
    var contents := ToolCallContents(low, raw, 0);
    var actions := CollectToolCallActions(contents, decode);
    var stop := AnyTerminal(actions);
    step := Step(reason, actions, stop);
  }

  /** `any(action.type in (FINISH, FAIL) for action in actions)` */
  method AnyTerminal(actions: seq<Action>) returns (stop: bool)
    ensures stop <==> HasTerminal(actions)
  {
    stop := false;
    for k := 0 to |actions|
      invariant stop <==> exists m :: 0 <= m < k && IsTerminal(actions[m].kind)
    {
      if IsTerminal(actions[k].kind) {
        stop := true;
      }
    }
  }

  /** The decoded call of the worked example: `computer_use` with a left click at (300, 150). */
  function LeftClickCall(): seq<(string, Json)>
  {
    [("name", JStr("computer_use")), ("arguments", JObj(LeftClickArgs()))]
  }

  function LeftClickArgs(): seq<(string, Json)>
  {
    [("action", JStr("left_click")), ("coordinate", JArr([JInt(300), JInt(150)]))]
  }

  /**
   * One tool-call block whose call names a point action with a point and no
   * count gives exactly that one action, with count 1, and does not stop
   * the task.
   */
  lemma SinglePointCall(body: string, decode: string -> Option<Json>, call: seq<(string, Json)>,
                        args: seq<(string, Json)>, x: int, y: int)
    requires Clean(body) && !StartsWith(body, "```")
    requires forall k :: 0 <= k < |body| ==> body[k] != '<'
    requires decode(body) == Some(JObj(call))
    requires ToolName(call) == "computer_use" && Get(call, "arguments") == Some(JObj(args))
    requires ActionName(args) in PointActions && Get(args, "count") == None
    requires CoordinatePair(Get(args, "coordinate")) == Some((x, y))
    ensures var r := ParseRawOutput(ToolCallOpen + body + ToolCallClose, "qwen3", decode);
      r.Ok? && r.value.actions == [Action(PointActions[ActionName(args)], PointText(x, y), Some(1))] && !r.value.stop
  {
    var a := Action(PointActions[ActionName(args)], PointText(x, y), Some(1));
    PointCallAction(call, decode, args, x, y);
    SingleBlockOutput(body, decode, call, a);
    PointActionNames(ActionName(args));
    Qwen3Mode(ToolCallOpen + body + ToolCallClose, decode, a);
  }

  /** In "qwen3" mode the result is the tool-call grammar's step, which stops only for a terminal action. */
  lemma Qwen3Mode(raw: string, decode: string -> Option<Json>, a: Action)
    requires Qwen3Output(raw, decode).actions == [a] && !IsTerminal(a.kind)
    ensures var r := ParseRawOutput(raw, "qwen3", decode);
      r.Ok? && r.value.actions == [a] && !r.value.stop
  {
    assert !HasTerminal([a]);
  }

  /** The output of a lone tool-call block whose call converts to `a` holds exactly `[a]`. */
  lemma SingleBlockOutput(body: string, decode: string -> Option<Json>, call: seq<(string, Json)>, a: Action)
    requires Clean(body) && !StartsWith(body, "```")
    requires forall k :: 0 <= k < |body| ==> body[k] != '<'
    requires decode(body) == Some(JObj(call))
    requires ToolCallAction(call, decode) == Some(a)
    ensures Qwen3Output(ToolCallOpen + body + ToolCallClose, decode).actions == [a]
  {
    ToolCallContentsSingle(body);
    SingleBlockActions(body, decode, call, a);
  }

  /** A `computer_use` call naming a point action with a point and no count gives that action. */
  lemma PointCallAction(call: seq<(string, Json)>, decode: string -> Option<Json>, args: seq<(string, Json)>, x: int, y: int)
    requires ToolName(call) == "computer_use" && Get(call, "arguments") == Some(JObj(args))
    requires ActionName(args) in PointActions && Get(args, "count") == None
    requires CoordinatePair(Get(args, "coordinate")) == Some((x, y))
    ensures ToolCallAction(call, decode) == Some(Action(PointActions[ActionName(args)], PointText(x, y), Some(1)))
  {
    ToolCallDispatch(call, decode, args);
    PointDispatch(args);
  }

  /** A single unfenced block that decodes to a call converting to `a` gives exactly `[a]`. */
  lemma SingleBlockActions(body: string, decode: string -> Option<Json>, call: seq<(string, Json)>, a: Action)
    requires Clean(body) && !StartsWith(body, "```")
    requires decode(body) == Some(JObj(call))
    requires ToolCallAction(call, decode) == Some(a)
    ensures ToolCallActions([body], decode) == [a]
  {
    StripCodeFenceUnfenced(body);
    assert [body][..0] == [];
    assert ToolCallObject(body, decode) == Some(call);
  }

  /**
   * The worked example: a block holding a `computer_use` left click at
   * (300, 150) gives one CLICK action with argument "300, 150" and count 1.
   */
  lemma LeftClickExample(body: string, decode: string -> Option<Json>)
    requires Clean(body) && !StartsWith(body, "```")
    requires forall k :: 0 <= k < |body| ==> body[k] != '<'
    requires decode(body) == Some(JObj(LeftClickCall()))
    ensures var r := ParseRawOutput(ToolCallOpen + body + ToolCallClose, "qwen3", decode);
      r.Ok? && r.value.actions == [Action(Click, "300, 150", Some(1))] && !r.value.stop
  {
    var call, args := LeftClickCall(), LeftClickArgs();
    LeftClickCallFields();
    LeftClickArgsFields();
    SinglePointCall(body, decode, call, args, 300, 150);
    LeftClickAction(ActionName(args));
  }

  lemma LeftClickCallFields()
    ensures ToolName(LeftClickCall()) == "computer_use"
    ensures Get(LeftClickCall(), "arguments") == Some(JObj(LeftClickArgs()))
  {
    GetPair("name", JStr("computer_use"), "arguments", JObj(LeftClickArgs()), "name");
    GetPair("name", JStr("computer_use"), "arguments", JObj(LeftClickArgs()), "arguments");
    StripNoop("computer_use");
  }

  lemma LeftClickArgsFields()
    ensures ActionName(LeftClickArgs()) == "left_click"
    ensures Get(LeftClickArgs(), "count") == None
    ensures CoordinatePair(Get(LeftClickArgs(), "coordinate")) == Some((300, 150))
  {
    var point := JArr([JInt(300), JInt(150)]);
    GetPair("action", JStr("left_click"), "coordinate", point, "action");
    GetPair("action", JStr("left_click"), "coordinate", point, "count");
    GetPair("action", JStr("left_click"), "coordinate", point, "coordinate");
    LeftClickName();
    CoordinatePairOfInts(300, 150);
  }

  lemma LeftClickName()
    ensures Lower(Strip("left_click")) == "left_click"
    ensures "left_click" in PointActions && PointActions["left_click"] == Click
  {
    LowerWordNormal("left_click");
  }

  lemma LeftClickAction(name: string)
    requires name == "left_click"
    ensures name in PointActions && Action(PointActions[name], PointText(300, 150), Some(1)) == Action(Click, "300, 150", Some(1))
  {
    LeftClickName();
    assert PointText(300, 150) == "300, 150";
  }

  /** A call to `computer_use` (or to no tool) is converted by its arguments object. */
  lemma ToolCallDispatch(call: seq<(string, Json)>, decode: string -> Option<Json>, args: seq<(string, Json)>)
    requires ToolName(call) == "" || ToolName(call) == "computer_use"
    requires Get(call, "arguments") == Some(JObj(args))
    ensures ToolCallAction(call, decode) == ArgumentsAction(args)
  {
    assert ToolArguments(Get(call, "arguments"), decode) == Some(args);
  }

  /** A point action is converted by `PointAction`, with the call's count. */
  lemma PointDispatch(args: seq<(string, Json)>)
    requires ActionName(args) in PointActions
    ensures ArgumentsAction(args) == PointAction(args, PointActions[ActionName(args)], CoercePositiveInt(Get(args, "count")))
  {
    PointActionNames(ActionName(args));
  }

  // ---------------------------------------------------------------------
  // `parse_raw_output`: the parser mode
  // ---------------------------------------------------------------------

  /**
   * `parse_raw_output`: "qwen3" and "legacy" use one grammar each, "auto"
   * tries them in a fixed order, any other mode is a ValueError. In auto
   * mode the Qwen3 step is returned only when it is productive.
   */
  function ParseRawOutput(raw: string, mode: string, decode: string -> Option<Json>): (r: Result<Step>)
    ensures mode == "qwen3" ==> r == Ok(Qwen3Output(raw, decode))
    ensures mode == "legacy" ==> r == LegacyOutput(raw)
    ensures mode != "qwen3" && mode != "legacy" && mode != "auto" ==> r.Err? && r.error.ValueError?
    ensures mode == "auto" ==>
      var q := Qwen3Output(raw, decode);
      && (r == LegacyOutput(raw) || (r == Ok(q) && Productive(q)))
      && (Contains(raw, ToolCallOpen) && Productive(q) ==> r == Ok(q))
      && (!(Contains(raw, ToolCallOpen) && Productive(q)) && (Contains(raw, ActionStart) || Contains(raw, ThinkStart))
          ==> r == LegacyOutput(raw))
      && (Productive(q) && !Contains(raw, ActionStart) && !Contains(raw, ThinkStart) ==> r == Ok(q))
      && (!Productive(q) ==> r == LegacyOutput(raw))
  {
    if mode == "qwen3" then Ok(Qwen3Output(raw, decode))
    else if mode == "legacy" then LegacyOutput(raw)
    else if mode == "auto" then
      var q := Qwen3Output(raw, decode);
      if Contains(raw, ToolCallOpen) && Productive(q) then Ok(q)
      else if Contains(raw, ActionStart) || Contains(raw, ThinkStart) then LegacyOutput(raw)
      else if Productive(q) then Ok(q)
      else LegacyOutput(raw)
    else Err(ValueError("Unsupported parser_mode: " + mode + ". Expected one of 'qwen3', 'legacy', 'auto'."))
  }

  /** Without any legacy marker the legacy grammar yields the empty step. */
  lemma LegacyWithoutMarkers(raw: string)
    requires !Contains(raw, ActionStart) && !Contains(raw, ThinkStart)
    ensures LegacyOutput(raw) == Ok(Step("", [], false))
  {
  }

  /** In auto mode, output that neither grammar can use gives the empty step rather than an error. */
  lemma AutoUnproductiveIsEmpty(raw: string, decode: string -> Option<Json>)
    requires !Productive(Qwen3Output(raw, decode))
    requires !Contains(raw, ActionStart) && !Contains(raw, ThinkStart)
    ensures ParseRawOutput(raw, "auto", decode) == Ok(Step("", [], false))
  {
    LegacyWithoutMarkers(raw);
  }

  /**
   * In "qwen3" mode there is no fallback to the legacy grammar: a text of
   * legacy tags whose parts hold no `<` gives a step with no actions.
   */
  lemma Qwen3ModeIgnoresLegacyTags(reasoning: string, block: string, decode: string -> Option<Json>)
    requires forall k :: 0 <= k < |reasoning| ==> reasoning[k] != '<'
    requires forall k :: 0 <= k < |block| ==> block[k] != '<'
    ensures var raw := ThinkStart + reasoning + ThinkEnd + "\n" + ActionStart + block + ActionEnd;
      var r := ParseRawOutput(raw, "qwen3", decode);
      r.Ok? && r.value.actions == [] && !r.value.stop
  {
    var raw := ThinkStart + reasoning + ThinkEnd + "\n" + ActionStart + block + ActionEnd;
    LegacyTagsNoToolTag();
    NoToolTagStartConcat(ThinkStart, reasoning);
    NoToolTagStartConcat(ThinkStart + reasoning, ThinkEnd);
    NoToolTagStartConcat(ThinkStart + reasoning + ThinkEnd, "\n");
    NoToolTagStartConcat(ThinkStart + reasoning + ThinkEnd + "\n", ActionStart);
    NoToolTagStartConcat(ThinkStart + reasoning + ThinkEnd + "\n" + ActionStart, block);
    NoToolTagStartConcat(ThinkStart + reasoning + ThinkEnd + "\n" + ActionStart + block, ActionEnd);
    NoToolTagInLower(raw);
    ToolCallContentsNone(Lower(raw), raw);
  }

  /** Every `<` is followed by a character that does not lower-case to `t`, so no tool-call tag starts anywhere. */
  predicate NoToolTagStart(s: string)
  {
    forall j :: 0 <= j < |s| && s[j] == '<' ==> j + 1 < |s| && LowerChar(s[j + 1]) != 't'
  }

  lemma NoToolTagStartConcat(a: string, b: string)
    requires NoToolTagStart(a) && NoToolTagStart(b)
    ensures NoToolTagStart(a + b)
  {
    forall j | 0 <= j < |a + b| && (a + b)[j] == '<'
      ensures j + 1 < |a + b| && LowerChar((a + b)[j + 1]) != 't'
    {
      if j < |a| {
        assert a[j] == '<';
      } else {
        assert b[j - |a|] == '<';
      }
    }
  }

  lemma LegacyTagsNoToolTag()
    ensures NoToolTagStart(ThinkStart) && NoToolTagStart(ThinkEnd) && NoToolTagStart(ActionStart)
    ensures NoToolTagStart(ActionEnd) && NoToolTagStart("\n")
  {
    TagOpensOnce(ThinkStart);
    TagOpensOnce(ThinkEnd);
    TagOpensOnce(ActionStart);
    TagOpensOnce(ActionEnd);
  }

  /** A tag whose only `<` is its first character, followed by `|`. */
  lemma TagOpensOnce(tag: string)
    requires |tag| >= 2 && tag[0] == '<' && tag[1] == '|'
    requires forall j :: 1 <= j < |tag| ==> tag[j] != '<'
    ensures NoToolTagStart(tag)
  {
  }

  lemma NoToolTagInLower(s: string)
    requires NoToolTagStart(s)
    ensures !Contains(Lower(s), ToolCallOpen)
  {
    var low := Lower(s);
    forall j | 0 <= j <= |low| ensures !OccursAt(low, ToolCallOpen, j) {
      if j < |low| {
        LowerKeepsAngle(s, j);
        if j + 1 < |low| {
          assert low[j + 1] == LowerChar(s[j + 1]);
        }
        ToolTagStart(low, j);
      }
    }
  }

  /** An opening tool-call tag starts with `<t`. */
  lemma ToolTagStart(s: string, j: nat)
    requires j < |s|
    ensures OccursAt(s, ToolCallOpen, j) ==> s[j] == '<' && s[j + 1] == 't'
  {
    if j + |ToolCallOpen| <= |s| {
      assert s[j..j + |ToolCallOpen|][0] == s[j];
      assert s[j..j + |ToolCallOpen|][1] == s[j + 1];
    }
  }
}
