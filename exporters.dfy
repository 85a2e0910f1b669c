/**
 * The observer's exporters: HTML escaping, and the Markdown and HTML
 * reports built event by event. Writing the report and the images to
 * disk is modelled by returning the text and the list of image files.
 */
module Exporters {
  import opened Wrappers
  import opened Text
  import ActionModel

  // ---------------------------------------------------------------------
  // _escape_html
  // ---------------------------------------------------------------------

  /** `_escape_html` as written: five replacements, `&` first. */
  function ReplaceChain(text: string): string
  {
    ReplaceChar(ReplaceChar(ReplaceChar(ReplaceChar(ReplaceChar(text, '&', "&amp;"), '<', "&lt;"), '>', "&gt;"), '"', "&quot;"), '\'', "&#39;")
  }

  /** The entity a character becomes. */
  function EscapeChar(c: char): string
  {
    match c
    case '&' => "&amp;"
    case '<' => "&lt;"
    case '>' => "&gt;"
    case '"' => "&quot;"
    case '\'' => "&#39;"
    case _ => [c]
  }

  /** `_escape_html`, character by character; `ChainIsEscape` shows it is the chain of replacements. */
  function EscapeHtml(s: string): string
  {
    if s == [] then [] else EscapeChar(s[0]) + EscapeHtml(s[1..])
  }

  lemma ChainAppend(a: string, b: string)
    ensures ReplaceChain(a + b) == ReplaceChain(a) + ReplaceChain(b)
  {
    var a1, b1 := ReplaceChar(a, '&', "&amp;"), ReplaceChar(b, '&', "&amp;");
    ReplaceCharAppend(a, b, '&', "&amp;");
    var a2, b2 := ReplaceChar(a1, '<', "&lt;"), ReplaceChar(b1, '<', "&lt;");
    ReplaceCharAppend(a1, b1, '<', "&lt;");
    var a3, b3 := ReplaceChar(a2, '>', "&gt;"), ReplaceChar(b2, '>', "&gt;");
    ReplaceCharAppend(a2, b2, '>', "&gt;");
    var a4, b4 := ReplaceChar(a3, '"', "&quot;"), ReplaceChar(b3, '"', "&quot;");
    ReplaceCharAppend(a3, b3, '"', "&quot;");
    ReplaceCharAppend(a4, b4, '\'', "&#39;");
  }

  /** `s.replace(c, rep)` on a one-character string. */
  lemma ReplaceOne(x: char, c: char, rep: string)
    ensures ReplaceChar([x], c, rep) == if x == c then rep else [x]
  {
    assert [x][1..] == [];
  }

  /** The replacements after `&`, on text holding none of the characters they replace. */
  lemma LaterStagesKeep(e: string)
    requires '<' !in e && '>' !in e && '"' !in e && '\'' !in e
    ensures ReplaceChar(ReplaceChar(ReplaceChar(ReplaceChar(e, '<', "&lt;"), '>', "&gt;"), '"', "&quot;"), '\'', "&#39;") == e
  {
  }

  lemma LastStagesKeep(e: string)
    requires '>' !in e && '"' !in e && '\'' !in e
    ensures ReplaceChar(ReplaceChar(ReplaceChar(e, '>', "&gt;"), '"', "&quot;"), '\'', "&#39;") == e
  {
  }

  lemma ChainAmp()
    ensures ReplaceChain("&") == "&amp;"
  {
    ReplaceOne('&', '&', "&amp;");
    LaterStagesKeep("&amp;");
  }

  lemma ChainLt()
    ensures ReplaceChain("<") == "&lt;"
  {
    ReplaceOne('<', '&', "&amp;");
    ReplaceOne('<', '<', "&lt;");
    LastStagesKeep("&lt;");
  }

  /** A character the first two replacements leave alone. */
  lemma ChainLate(c: char)
    requires c != '&' && c != '<'
    ensures ReplaceChain([c]) == EscapeChar(c)
  {
    ReplaceOne(c, '&', "&amp;");
    ReplaceOne(c, '<', "&lt;");
    ReplaceOne(c, '>', "&gt;");
    ReplaceOne(c, '"', "&quot;");
    ReplaceOne(c, '\'', "&#39;");
  }

  /** One character: the later replacements never touch the entity an earlier one wrote. */
  lemma ChainOne(c: char)
    ensures ReplaceChain([c]) == EscapeChar(c)
  {
    if c == '&' {
      ChainAmp();
    } else if c == '<' {
      ChainLt();
    } else {
      ChainLate(c);
    }
  }

  /** The chain of replacements escapes each character on its own. */
  lemma {:induction false} ChainIsEscape(s: string)
    ensures ReplaceChain(s) == EscapeHtml(s)
  {
    if s == [] {
      assert ReplaceChain(s) == [];
    } else {
      assert s == [s[0]] + s[1..];
      ChainAppend([s[0]], s[1..]);
      ChainOne(s[0]);
      ChainIsEscape(s[1..]);
    }
  }

  /** The characters escaping removes. */
  predicate Special(c: char) { c == '<' || c == '>' || c == '"' || c == '\'' }

  /** Escaped text holds no `<`, `>`, `"` or `'`. */
  lemma {:induction false} EscapedHasNoMarkup(s: string)
    ensures forall i :: 0 <= i < |EscapeHtml(s)| ==> !Special(EscapeHtml(s)[i])
  {
    if s != [] {
      EscapedHasNoMarkup(s[1..]);
    }
  }

  /** Text with none of the five characters is left as it is. */
  lemma {:induction false} EscapePlain(s: string)
    requires forall i :: 0 <= i < |s| ==> !Special(s[i]) && s[i] != '&'
    ensures EscapeHtml(s) == s
  {
    if s != [] {
      EscapePlain(s[1..]);
      assert s == [s[0]] + s[1..];
    }
  }

  /** An existing entity is escaped again, since `&` goes first. */
  lemma EntityEscapedTwice()
    ensures EscapeHtml("&amp;") == "&amp;amp;"
  {
    assert "&amp;"[1..] == "amp;";
    assert "amp;"[1..] == "mp;";
    assert "mp;"[1..] == "p;";
    assert "p;"[1..] == ";";
    assert ";"[1..] == "";
  }

  // ---------------------------------------------------------------------
  // events
  // ---------------------------------------------------------------------

  /** A screenshot: none, raw bytes, or a URL. */
  datatype Image = NoImage | ImageBytes(data: seq<bv8>) | ImageUrl(url: string)

  /** The step an agent planned: reasoning, actions and whether it stops. */
  datatype Step = Step(reason: Option<string>, actions: seq<ActionModel.Action>, stop: bool)

  /** The observer's events; `timestamp` is the already formatted `%H:%M:%S`. */
  datatype Event =
    | StepEvent(timestamp: string, stepNum: int, image: Image, step: Step)
    | ActionEvent(timestamp: string, error: Option<string>)
    | LogEvent(timestamp: string, message: string)
    | SplitEvent(timestamp: string, heading: string)
    | ImageEvent(timestamp: string)
    | PlanEvent(timestamp: string, phase: string, image: Image, reasoning: Option<string>, result: Option<string>)

  /** An image file written under the images directory. */
  datatype ImageFile = ImageFile(dir: string, name: string, data: seq<bv8>)

  /** A text Python treats as true: given and not empty. */
  predicate Given(s: Option<string>) { s.Some? && s.value != "" }

  /** `" (x{count})"` for a count above one, "" otherwise. */
  function CountSuffix(count: Option<int>): (r: string)
    ensures r != "" <==> count.Some? && count.value > 1
  {
    if count.Some? && count.value != 0 && count.value > 1 then " (x" + IntToString(count.value) + ")" else ""
  }

  /**
   * `s.capitalize()` on ASCII letters: the same text up to case, with no
   * lower-case letter first and no upper-case letter after it.
   */
  function Capitalize(s: string): (r: string)
    ensures |r| == |s| && Lower(r) == Lower(s)
    ensures r != [] ==> !('a' <= r[0] <= 'z')
    ensures forall i :: 1 <= i < |r| ==> !('A' <= r[i] <= 'Z')
  {
    if s == [] then []
    else
      var r := [UpperChar(s[0])] + Lower(s[1..]);
      CapitalizeSameLower(s, r);
      r
  }

  lemma CapitalizeSameLower(s: string, r: string)
    requires s != [] && r == [UpperChar(s[0])] + Lower(s[1..])
    ensures |r| == |s| && Lower(r) == Lower(s)
    ensures !('a' <= r[0] <= 'z')
    ensures forall i :: 1 <= i < |r| ==> !('A' <= r[i] <= 'Z')
  {
    forall i | 1 <= i < |r| ensures !('A' <= r[i] <= 'Z') {
      assert r[i] == Lower(s[1..])[i - 1];
    }
    forall i | 0 <= i < |s| ensures Lower(r)[i] == Lower(s)[i] {
      if i > 0 {
        assert r[i] == Lower(s[1..])[i - 1] == LowerChar(s[i]);
      }
    }
  }

  /** The heading of a plan event. */
  function PhaseTitle(phase: string): (title: string)
    ensures phase == "initial" ==> title == "Initial Planning"
    ensures phase == "reflection" ==> title == "Reflection"
    ensures phase == "summary" ==> title == "Summary"
    ensures phase != "initial" && phase != "reflection" && phase != "summary" ==> title == Capitalize(phase)
  {
    if phase == "initial" then "Initial Planning"
    else if phase == "reflection" then "Reflection"
    else if phase == "summary" then "Summary"
    else Capitalize(phase)
  }

  /**
   * `Path(dir).name`: the last component, where pathlib ignores trailing
   * slashes and drops "." components, so `Path(".").name` is "".
   */
  function BaseName(dir: string): (r: string)
    ensures |r| <= |dir|
    ensures '/' !in r && r != "."
    decreases |dir|
  {
    if dir == [] then []
    else if dir[|dir| - 1] == '/' then BaseName(dir[..|dir| - 1])
    else
      var last := LastComponent(dir);
      if last == "." then BaseName(dir[..|dir| - 1]) else last
  }

  lemma {:induction false} LastComponentOf(p: string, name: string)
    requires '/' !in name
    ensures LastComponent(p + "/" + name) == name
    decreases |name|
  {
    var s := p + "/" + name;
    if name == [] {
      assert s[|s| - 1] == '/';
    } else {
      assert s[..|s| - 1] == p + "/" + name[..|name| - 1];
      assert s[|s| - 1] == name[|name| - 1];
      LastComponentOf(p, name[..|name| - 1]);
      assert name == name[..|name| - 1] + [name[|name| - 1]];
    }
  }

  lemma {:induction false} LastComponentWhole(name: string)
    requires '/' !in name
    ensures LastComponent(name) == name
    decreases |name|
  {
    if name != [] {
      LastComponentWhole(name[..|name| - 1]);
      assert name == name[..|name| - 1] + [name[|name| - 1]];
    }
  }

  /** A directory's name is its last component: `Path(p + "/" + name).name == name`, and `Path(name).name == name`. */
  lemma BaseNameOfComponent(p: string, name: string)
    requires '/' !in name && name != "" && name != "."
    ensures BaseName(p + "/" + name) == name
    ensures BaseName(name) == name
  {
    var s := p + "/" + name;
    assert s[|s| - 1] == name[|name| - 1];
    LastComponentOf(p, name);
    LastComponentWhole(name);
  }

  /** Trailing slashes and trailing "." components do not change the name. */
  lemma BaseNameIgnoresTail(dir: string)
    ensures BaseName(dir + "/") == BaseName(dir)
    ensures BaseName(dir + "/.") == BaseName(dir)
  {
    var s := dir + "/";
    assert s[..|s| - 1] == dir;
    var t := dir + "/.";
    assert t[|t| - 1] == '.';
    LastComponentOf(dir, ".");
    assert t[..|t| - 1] == s;
  }

  /** With images in the current directory, `Path(".").name` is "" and the image is linked by its file name alone. */
  lemma CurrentDirLinksFileName(filename: string)
    ensures BaseName(".") == ""
    ensures RelPath(".", filename) == filename
  {
    assert LastComponent(".") == LastComponent("") + ".";
  }

  function LastComponent(s: string): (r: string)
    ensures |r| <= |s|
    ensures '/' !in r
  {
    if s == [] || s[|s| - 1] == '/' then [] else LastComponent(s[..|s| - 1]) + [s[|s| - 1]]
  }

  /** `Path(dir).name / Path(filename)` */
  function RelPath(dir: string, filename: string): string
  {
    var name := BaseName(dir);
    if name == "" then filename else name + "/" + filename
  }

  // ---------------------------------------------------------------------
  // export_to_markdown
  // ---------------------------------------------------------------------

  const ReportTitle := "# Agent Execution Report\n"
  const CompleteLine := "\n**Status:** Task Complete\n"

  /** The line of one planned action. */
  function ActionLine(a: ActionModel.Action): string
  {
    "- `" + ActionModel.Name(a.kind) + "`: " + a.argument + CountSuffix(a.count) + "\n"
  }

  function ActionLines(actions: seq<ActionModel.Action>): (lines: seq<string>)
    ensures |lines| == |actions|
    ensures forall i :: 0 <= i < |actions| ==> lines[i] == ActionLine(actions[i])
  {
    seq(|actions|, i requires 0 <= i < |actions| => ActionLine(actions[i]))
  }

  /**
   * The lines and the file of a screenshot: with an images directory, raw
   * bytes are written as `filename` and linked; without one, only their
   * size is reported; a URL is shown as it is.
   */
  function ImageLines(image: Image, imagesDir: string, caption: string, filename: string): (r: (seq<string>, seq<ImageFile>))
    ensures |r.0| <= 1
    ensures r.1 != [] <==> image.ImageBytes? && imagesDir != ""
    ensures r.1 != [] ==> r.1 == [ImageFile(imagesDir, filename, image.data)]
  {
    match image
    case NoImage => ([], [])
    case ImageUrl(u) => (["\n**Screenshot URL:** " + u + "\n"], [])
    case ImageBytes(data) =>
      if imagesDir != "" then
        (["\n![" + caption + "](" + RelPath(imagesDir, filename) + ")\n"], [ImageFile(imagesDir, filename, data)])
      else
        (["\n*[Screenshot captured - " + NatToString(|data|) + " bytes]*\n"], [])
  }

  function StepTail(step: Step): (lines: seq<string>)
  {
    var reason := if Given(step.reason) then ["\n**Reasoning:**\n> " + step.reason.value + "\n"] else [];
    var planned := if step.actions != [] then ["\n**Planned Actions:**\n"] + ActionLines(step.actions) else [];
    reason + planned
  }

  /** The caption and the file name of a step's screenshot. */
  function StepShot(stepNum: int, image: Image, imagesDir: string): (r: (seq<string>, seq<ImageFile>))
  {
    ImageLines(image, imagesDir, "Step " + IntToString(stepNum), "step_" + IntToString(stepNum) + ".png")
  }

  /** A step event before its completion line: heading, time, screenshot, reasoning, planned actions. */
  function StepBodyLines(ts: string, stepNum: int, image: Image, step: Step, imagesDir: string): (lines: seq<string>)
    ensures |lines| >= 2
  {
    ["\n## Step " + IntToString(stepNum) + "\n", "**Time:** " + ts + "\n"] + StepShot(stepNum, image, imagesDir).0 + StepTail(step)
  }

  /** A step event, with the completion line when the step stops. */
  function StepLines(ts: string, stepNum: int, image: Image, step: Step, imagesDir: string): (r: (seq<string>, seq<ImageFile>))
  {
    var body := StepBodyLines(ts, stepNum, image, step, imagesDir);
    (if step.stop then body + [CompleteLine] else body, StepShot(stepNum, image, imagesDir).1)
  }

  /** A plan event; its image file is numbered by `counter`, the number of images written before it. */
  function PlanLines(ts: string, phase: string, image: Image, reasoning: Option<string>, result: Option<string>, imagesDir: string, counter: nat): (r: (seq<string>, seq<ImageFile>))
  {
    var title := PhaseTitle(phase);
    var shot := if image == NoImage || image == ImageBytes([]) || image == ImageUrl("") then ([], [])
      else ImageLines(image, imagesDir, title, "plan_" + phase + "_" + NatToString(counter + 1) + ".png");
    var reason := if Given(reasoning) then ["\n**Reasoning:**\n> " + reasoning.value + "\n"] else [];
    var outcome := if Given(result) then ["\n**Result:** " + result.value + "\n"] else [];
    (["\n### " + title + " (" + ts + ")\n"] + shot.0 + reason + outcome, shot.1)
  }

  /** The lines and image files of one event, `counter` images having been written before. */
  function EventLines(e: Event, imagesDir: string, counter: nat): (r: (seq<string>, seq<ImageFile>))
    ensures |r.1| <= 1
  {
    match e
    case StepEvent(ts, n, image, step) => StepLines(ts, n, image, step, imagesDir)
    case ActionEvent(ts, error) =>
      (["\n### Actions Executed (" + ts + ")\n", if Given(error) then "\n**Error:** " + error.value + "\n" else "\n**Result:** Success\n"], [])
    case LogEvent(ts, message) => (["\n> **Log (" + ts + "):** " + message + "\n"], [])
    case SplitEvent(_, heading) => ([if heading != "" then "\n---\n\n### " + heading + "\n" else "\n---\n"], [])
    case ImageEvent(_) => ([], [])
    case PlanEvent(ts, phase, image, reasoning, result) => PlanLines(ts, phase, image, reasoning, result, imagesDir, counter)
  }

  /** The report's lines and the images written, event by event. */
  function Markdown(events: seq<Event>, imagesDir: string): (r: (seq<string>, seq<ImageFile>))
    ensures |r.0| >= 1 && r.0[0] == ReportTitle
  {
    if events == [] then ([ReportTitle], [])
    else
      var before := Markdown(events[..|events| - 1], imagesDir);
      var now := EventLines(events[|events| - 1], imagesDir, |before.1|);
      (before.0 + now.0, before.1 + now.1)
  }

  /**
   * `export_to_markdown`: the report text and the image files written, in
   * order; `imagesDir` is "" where no directory is given.
   */
  method ExportToMarkdown(events: seq<Event>, imagesDir: string) returns (text: string, files: seq<ImageFile>)
    ensures text == Join(Markdown(events, imagesDir).0, "")
    ensures files == Markdown(events, imagesDir).1
  {
    var lines := [ReportTitle];
    var imageCounter := 0;
    files := [];
    for i := 0 to |events|
      invariant (lines, files) == Markdown(events[..i], imagesDir)
      invariant imageCounter == |files|
    {
      assert events[..i + 1][..i] == events[..i];
      var now := EventLines(events[i], imagesDir, imageCounter);
      lines := lines + now.0;
      files := files + now.1;
      imageCounter := imageCounter + |now.1|;
    }
    assert events[..|events|] == events;
    text := Join(lines, "");
  }

  /** An image event adds nothing to the report. */
  lemma ImageEventSilent(events: seq<Event>, imagesDir: string, ts: string)
    ensures Markdown(events + [ImageEvent(ts)], imagesDir) == Markdown(events, imagesDir)
  {
    assert (events + [ImageEvent(ts)])[..|events|] == events;
    var before := Markdown(events, imagesDir);
    assert before.0 + [] == before.0 && before.1 + [] == before.1;
  }

  /** A step writes an image exactly when it carries bytes and there is a directory, named after the step. */
  lemma StepImageFile(ts: string, n: int, image: Image, step: Step, imagesDir: string)
    ensures var files := StepLines(ts, n, image, step, imagesDir).1;
      && (files != [] <==> image.ImageBytes? && imagesDir != "")
      && (files != [] ==> files == [ImageFile(imagesDir, "step_" + IntToString(n) + ".png", image.data)])
  {
  }

  /** A plan writes an image exactly when it carries non-empty bytes and there is a directory, numbered after the images before it. */
  lemma PlanImageFile(ts: string, phase: string, image: Image, reasoning: Option<string>, result: Option<string>, imagesDir: string, counter: nat)
    ensures var files := PlanLines(ts, phase, image, reasoning, result, imagesDir, counter).1;
      && (files != [] <==> image.ImageBytes? && image.data != [] && imagesDir != "")
      && (files != [] ==> files == [ImageFile(imagesDir, "plan_" + phase + "_" + NatToString(counter + 1) + ".png", image.data)])
  {
  }

  lemma ActionLineNotComplete(a: ActionModel.Action)
    ensures ActionLine(a) != CompleteLine
  {
    assert ActionLine(a)[0] == '-';
  }

  lemma ReasonLineNotComplete(reason: string)
    ensures "\n**Reasoning:**\n> " + reason + "\n" != CompleteLine
  {
    assert ("\n**Reasoning:**\n> " + reason + "\n")[3] == 'R';
  }

  lemma ShotLineNotComplete(stepNum: int, image: Image, imagesDir: string)
    ensures forall l :: l in StepShot(stepNum, image, imagesDir).0 ==> l != CompleteLine
  {
    var caption := "Step " + IntToString(stepNum);
    var filename := "step_" + IntToString(stepNum) + ".png";
    match image
    case NoImage =>
    case ImageUrl(u) =>
      LeadOfThree("\n**Screenshot URL:** ", u, "\n", 4);
    case ImageBytes(data) =>
      if imagesDir != "" {
        LeadOfFive("\n![", caption, "](", RelPath(imagesDir, filename), ")\n", 1);
      } else {
        LeadOfThree("\n*[Screenshot captured - ", NatToString(|data|), " bytes]*\n", 2);
      }
  }

  /** The last element of `a + b + c`, for a non-empty `a`. */
  lemma LastOfThree<T>(a: seq<T>, b: seq<T>, c: seq<T>)
    requires a != []
    ensures var abc := a + b + c;
      abc[|abc| - 1] == if c != [] then c[|c| - 1] else if b != [] then b[|b| - 1] else a[|a| - 1]
  {
  }

  /** Reasoning and planned actions never end in a completion line. */
  lemma TailNotComplete(step: Step)
    requires StepTail(step) != []
    ensures StepTail(step)[|StepTail(step)| - 1] != CompleteLine
  {
    if step.actions != [] {
      ActionLineNotComplete(step.actions[|step.actions| - 1]);
    } else {
      ReasonLineNotComplete(step.reason.value);
    }
  }

  /** The line before the completion line is never itself a completion line. */
  lemma StepBodyNotComplete(ts: string, n: int, image: Image, step: Step, imagesDir: string)
    ensures var body := StepBodyLines(ts, n, image, step, imagesDir);
      body[|body| - 1] != CompleteLine
  {
    var head := ["\n## Step " + IntToString(n) + "\n", "**Time:** " + ts + "\n"];
    var shot := StepShot(n, image, imagesDir).0;
    var tail := StepTail(step);
    LastOfThree(head, shot, tail);
    if tail != [] {
      TailNotComplete(step);
    } else if shot != [] {
      assert shot[|shot| - 1] in shot;
      ShotLineNotComplete(n, image, imagesDir);
    } else {
      assert head[1][0] == '*';
    }
  }

  /** A step's report ends with the completion line exactly when the step stops. */
  lemma StepCompleteIffStop(ts: string, n: int, image: Image, step: Step, imagesDir: string)
    ensures var lines := StepLines(ts, n, image, step, imagesDir).0;
      |lines| >= 2 && (lines[|lines| - 1] == CompleteLine <==> step.stop)
  {
    StepBodyNotComplete(ts, n, image, step, imagesDir);
  }

  // ---------------------------------------------------------------------
  // export_to_html
  // ---------------------------------------------------------------------

  const CompleteDiv := "<div class=\"complete\">Task Complete</div>"

  function Timestamp(ts: string): string
  {
    "<span class=\"timestamp\">" + ts + "</span>"
  }

  /** The part of one planned action; its argument is escaped. */
  function ActionItem(a: ActionModel.Action): string
  {
    "<li><code>" + ActionModel.Name(a.kind) + "</code>: " + EscapeHtml(a.argument) + CountSuffix(a.count) + "</li>"
  }

  function ActionItems(actions: seq<ActionModel.Action>): (parts: seq<string>)
    ensures |parts| == |actions|
    ensures forall i :: 0 <= i < |actions| ==> parts[i] == ActionItem(actions[i])
  {
    seq(|actions|, i requires 0 <= i < |actions| => ActionItem(actions[i]))
  }

  /** A screenshot inline as base64 (`b64` is the encoder), or a link to its URL. */
  function ImagePart(image: Image, alt: string, b64: seq<bv8> -> string): (parts: seq<string>)
    ensures |parts| <= 1
  {
    match image
    case NoImage => []
    case ImageBytes(data) => ["<img src=\"data:image/png;base64," + b64(data) + "\" alt=\"" + alt + "\" class=\"screenshot\"/>"]
    case ImageUrl(u) => ["<p class=\"url\">Screenshot URL: <a href=\"" + u + "\">" + u + "</a></p>"]
  }

  /** A reasoning block, escaped. */
  function ReasoningParts(reason: Option<string>): (parts: seq<string>)
  {
    if Given(reason) then ["<div class=\"reasoning\">", "<strong>Reasoning:</strong><p>" + EscapeHtml(reason.value) + "</p>", "</div>"] else []
  }

  /** The planned actions as a list, when there are any. */
  function PlannedParts(actions: seq<ActionModel.Action>): (parts: seq<string>)
    ensures parts == [] <==> actions == []
    ensures parts != [] ==> parts[|parts| - 1] == "</ul></div>"
  {
    if actions != [] then ["<div class=\"actions\">", "<strong>Planned Actions:</strong><ul>"] + ActionItems(actions) + ["</ul></div>"] else []
  }

  function StepBody(ts: string, n: int, image: Image, step: Step, b64: seq<bv8> -> string): (parts: seq<string>)
  {
    StepHead(ts, n) + ImagePart(image, "Step " + IntToString(n), b64) + ReasoningParts(step.reason) + PlannedParts(step.actions)
  }

  /** The opening of a step's block: its heading and time. */
  function StepHead(ts: string, n: int): (parts: seq<string>)
    ensures |parts| == 3 && parts[2] == Timestamp(ts)
  {
    ["<div class=\"step\">", "<h2>Step " + IntToString(n) + "</h2>", Timestamp(ts)]
  }

  /** The parts of one event. */
  function EventParts(e: Event, b64: seq<bv8> -> string): seq<string>
  {
    match e
    case StepEvent(ts, n, image, step) =>
      var body := StepBody(ts, n, image, step, b64);
      (if step.stop then body + [CompleteDiv] else body) + ["</div>"]
    case ActionEvent(ts, error) =>
      ["<div class=\"action-result\">", Timestamp(ts),
       if Given(error) then "<div class=\"error\">Error: " + EscapeHtml(error.value) + "</div>" else "<div class=\"success\">Actions executed successfully</div>",
       "</div>"]
    case LogEvent(ts, message) => ["<div class=\"log\">", Timestamp(ts), "<p>" + EscapeHtml(message) + "</p>", "</div>"]
    case SplitEvent(_, heading) =>
      [if heading != "" then "<div class=\"split\"><h3>" + EscapeHtml(heading) + "</h3></div>" else "<hr class=\"split-line\"/>"]
    case ImageEvent(_) => []
    case PlanEvent(ts, phase, image, reasoning, result) =>
      var title := PhaseTitle(phase);
      var shot := if image == NoImage || image == ImageBytes([]) || image == ImageUrl("") then [] else ImagePart(image, title, b64);
      var outcome := if Given(result) then ["<div class=\"plan-result\"><strong>Result:</strong> " + EscapeHtml(result.value) + "</div>"] else [];
      ["<div class=\"plan\">", "<h3>" + title + "</h3>", Timestamp(ts)] + shot + ReasoningParts(reasoning) + outcome + ["</div>"]
  }

  /** Every event's parts, in order. */
  function HtmlBody(events: seq<Event>, b64: seq<bv8> -> string): seq<string>
  {
    if events == [] then [] else HtmlBody(events[..|events| - 1], b64) + EventParts(events[|events| - 1], b64)
  }

  lemma HtmlBodySnoc(events: seq<Event>, i: nat, b64: seq<bv8> -> string)
    requires i < |events|
    ensures HtmlBody(events[..i + 1], b64) == HtmlBody(events[..i], b64) + EventParts(events[i], b64)
  {
    assert events[..i + 1][..i] == events[..i];
  }

  /**
   * `export_to_html`: the header, every event's parts, the footer. The source
   * writes a fixed HTML head and tail; they are parameters here, so the
   * contract holds for that text as for any other.
   */
  method ExportToHtml(events: seq<Event>, header: string, footer: string, b64: seq<bv8> -> string) returns (text: string)
    ensures text == Join([header] + HtmlBody(events, b64) + [footer], "")
  {
    var body := [];
    for i := 0 to |events|
      invariant body == HtmlBody(events[..i], b64)
    {
      HtmlBodySnoc(events, i, b64);
      body := body + EventParts(events[i], b64);
    }
    assert events[..|events|] == events;
    text := Join([header] + body + [footer], "");
  }

  /** No part of a step's body but the completion part has a `d` second: the others open `span`, `img`, `p`, or close. */
  lemma StepBodyLastNotComplete(ts: string, n: int, image: Image, step: Step, b64: seq<bv8> -> string)
    ensures var body := StepBody(ts, n, image, step, b64);
      |body| >= 3 && body[|body| - 1] != CompleteDiv
  {
    var head := StepHead(ts, n);
    var shot := ImagePart(image, "Step " + IntToString(n), b64);
    var reasoning := ReasoningParts(step.reason);
    var planned := PlannedParts(step.actions);
    TimestampLead(ts);
    ImagePartNotComplete(image, "Step " + IntToString(n), b64);
    ClosingLead(step);
    CompleteLead();
    LastNotComplete(head, shot, reasoning, planned, CompleteDiv);
  }

  lemma CompleteLead()
    ensures |CompleteDiv| > 1 && CompleteDiv[1] == 'd'
  {
  }

  lemma TimestampLead(ts: string)
    ensures |Timestamp(ts)| > 1 && Timestamp(ts)[1] == 's'
  {
    LeadOfThree("<span class=\"timestamp\">", ts, "</span>", 1);
  }

  /** The reasoning and the action list both end in a closing tag. */
  lemma ClosingLead(step: Step)
    ensures var r := ReasoningParts(step.reason); r != [] ==> |r[|r| - 1]| > 1 && r[|r| - 1][1] == '/'
    ensures var p := PlannedParts(step.actions); p != [] ==> |p[|p| - 1]| > 1 && p[|p| - 1][1] == '/'
  {
  }

  /** The last of four runs of parts, none of whose possible last parts has a `d` second. */
  lemma LastNotComplete(head: seq<string>, shot: seq<string>, reasoning: seq<string>, planned: seq<string>, complete: string)
    requires |complete| > 1 && complete[1] == 'd'
    requires |head| == 3 && |head[2]| > 1 && head[2][1] != 'd'
    requires |shot| <= 1 && (|shot| == 1 ==> |shot[0]| > 1 && shot[0][1] != 'd')
    requires reasoning != [] ==> |reasoning[|reasoning| - 1]| > 1 && reasoning[|reasoning| - 1][1] == '/'
    requires planned != [] ==> |planned[|planned| - 1]| > 1 && planned[|planned| - 1][1] == '/'
    ensures var body := head + shot + reasoning + planned;
      |body| >= 3 && body[|body| - 1] != complete
  {
    var body := head + shot + reasoning + planned;
    LastOfThree(head + shot, reasoning, planned);
    LastOfThree(head, shot, []);
  }

  lemma ImagePartNotComplete(image: Image, alt: string, b64: seq<bv8> -> string)
    ensures var s := ImagePart(image, alt, b64); |s| == 1 ==> |s[0]| > 1 && s[0][1] != 'd'
  {
    match image
    case NoImage =>
    case ImageUrl(u) =>
      LeadOfFive("<p class=\"url\">Screenshot URL: <a href=\"", u, "\">", u, "</a></p>", 1);
    case ImageBytes(data) =>
      LeadOfFive("<img src=\"data:image/png;base64,", b64(data), "\" alt=\"", alt, "\" class=\"screenshot\"/>", 1);
  }

  /** A character of the first of several concatenated strings. */
  lemma LeadOfFive(a: string, b: string, c: string, d: string, e: string, i: nat)
    requires i < |a|
    ensures (a + b + c + d + e)[i] == a[i]
  {
  }

  lemma LeadOfThree(a: string, b: string, c: string, i: nat)
    requires i < |a|
    ensures (a + b + c)[i] == a[i]
  {
  }

  /** A step's block ends with the completion part before its closing tag exactly when the step stops. */
  lemma HtmlCompleteIffStop(ts: string, n: int, image: Image, step: Step, b64: seq<bv8> -> string)
    ensures var parts := EventParts(StepEvent(ts, n, image, step), b64);
      |parts| >= 4 && parts[|parts| - 1] == "</div>" && (parts[|parts| - 2] == CompleteDiv <==> step.stop)
  {
    StepBodyLastNotComplete(ts, n, image, step, b64);
  }

  /** User text in a log entry cannot open a tag: its escaped form holds no `<`. */
  lemma LogMessageEscaped(ts: string, message: string)
    ensures var part := EventParts(LogEvent(ts, message), (d: seq<bv8>) => "")[2];
      part == "<p>" + EscapeHtml(message) + "</p>" && forall i :: 0 <= i < |EscapeHtml(message)| ==> EscapeHtml(message)[i] != '<'
  {
    EscapedHasNoMarkup(message);
  }
}
