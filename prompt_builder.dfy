/**
 * The instruction prompt sent to the model: a tagged template for the
 * legacy grammar, a short template for the Qwen3 grammar, chosen by a
 * mode string whose default is "qwen3".
 */
module PromptBuilder {
  import opened Wrappers
  import opened Text
  import OutputParser

  /** The legacy template up to the example reply. */
  const LegacyIntro: string :=
    "You are a Desktop Agent completing computer use tasks from a user instruction.\n"
    + "\n"
    + "Every step, you will look at the screenshot and output the desired actions in a format as:\n"
    + "\n"

  /** The example reply: one thought line, one action line. */
  const ThinkText: string := " brief description of your intent and reasoning " + OutputParser.ThinkEnd + "\n"
  const ActionText: string := " one of the allowed actions as below " + OutputParser.ActionEnd + "\n"

  /** The action list and the lead-in to the instruction. */
  const LegacyActions: string :=
    "\n"
    + "In the action field, you have the following action formats:\n"
    + "1. click(x, y) # left-click at the position (x, y), where x and y are integers normalized between 0 and 1000\n"
    + "2. left_double(x, y) # left-double-click at the position (x, y), where x and y are integers normalized between 0 and 1000\n"
    + "3. left_triple(x, y) # left-triple-click at the position (x, y), where x and y are integers normalized between 0 and 1000\n"
    + "4. right_single(x, y) # right-click at the position (x, y), where x and y are integers normalized between 0 and 1000\n"
    + "5. drag(x1, y1, x2, y2) # drag the mouse from (x1, y1) to (x2, y2) to select or move contents, where x1, y1, x2, y2 are integers normalized between 0 and 1000\n"
    + "6. hotkey(key, c) # press the key for c times\n"
    + "7. type(text) # type a text string on the keyboard\n"
    + "8. scroll(x, y, direction, c) # scroll the mouse at position (x, y) in the direction of up or down for c times, where x and y are integers normalized between 0 and 1000\n"
    + "9. wait() # wait for a while\n"
    + "10. finish() # indicate the task is finished\n"
    + "11. fail() # indicate the task is infeasible\n"
    + "\n"
    + "Directly output the text beginning with <|think_start|>, no additional text is needed for this scenario.\n"
    + "\n"
    + "The user instruction is:\n"

  const Qwen3Lead: string := "Please generate the next move according to the UI screenshot, instruction and previous actions.\n\n"
  const InstructionLabel: string := "Instruction: "
  const PreviousLabel: string := "Previous actions:\n"

  /** The legacy template up to the instruction. */
  const LegacyHead: string :=
    LegacyIntro + (OutputParser.ThinkStart + ThinkText) + (OutputParser.ActionStart + ActionText) + LegacyActions

  /** The legacy template with the instruction filled in. */
  function LegacyPrompt(taskDescription: string): string
  {
    LegacyHead + taskDescription + "\n"
  }

  /** What the Qwen3 template shows for the previous actions: the text, or "None" when it is absent or empty. */
  function Shown(previousActions: Option<string>): (shown: string)
    ensures shown == "None" <==> previousActions.None? || previousActions.value in {"", "None"}
  {
    if previousActions.None? || previousActions.value == "" then "None" else previousActions.value
  }

  /** The Qwen3 template with the instruction and the previous actions filled in. */
  function Qwen3Prompt(taskDescription: string, previousActions: Option<string>): string
  {
    Qwen3Lead + InstructionLabel + taskDescription + Qwen3Tail(previousActions)
  }

  /** The Qwen3 template after the instruction. */
  function Qwen3Tail(previousActions: Option<string>): string
  {
    "\n\n" + PreviousLabel + Shown(previousActions) + "\n"
  }

  /** `build_prompt`: legacy and qwen3 fill their template, any other mode is a ValueError. */
  function BuildPrompt(taskDescription: string, previousActions: Option<string> := None, promptMode: string := "qwen3"): (r: Result<string>)
    ensures r.Err? <==> promptMode != "legacy" && promptMode != "qwen3"
    ensures r.Err? ==> r.error == ValueError("Unsupported prompt_mode: " + promptMode + ". Expected 'qwen3' or 'legacy'.")
    ensures promptMode == "legacy" ==> r == Ok(LegacyPrompt(taskDescription))
    ensures promptMode == "qwen3" ==> r == Ok(Qwen3Prompt(taskDescription, previousActions))
  {
    if promptMode == "legacy" then Ok(LegacyPrompt(taskDescription))
    else if promptMode == "qwen3" then Ok(Qwen3Prompt(taskDescription, previousActions))
    else Err(ValueError("Unsupported prompt_mode: " + promptMode + ". Expected 'qwen3' or 'legacy'."))
  }

  /** With no mode given the Qwen3 template is used, and the legacy template ignores the previous actions. */
  lemma ModeDefaults(taskDescription: string, p: Option<string>, q: Option<string>)
    ensures BuildPrompt(taskDescription) == Ok(Qwen3Prompt(taskDescription, None))
    ensures Qwen3Prompt(taskDescription, None) == Qwen3Prompt(taskDescription, Some(""))
    ensures BuildPrompt(taskDescription, p, "legacy") == BuildPrompt(taskDescription, q, "legacy")
  {
  }

  /** The substring of `h + t + tail` where `t` was filled in. */
  lemma FilledAt(h: string, t: string, tail: string)
    ensures (h + t + tail)[|h|..|h| + |t|] == t
  {
    assert forall k :: 0 <= k < |t| ==> (h + t + tail)[|h| + k] == t[k];
  }

  lemma ContainsMiddle(a: string, m: string, b: string)
    ensures Contains(a + m + b, m)
  {
    FilledAt(a, m, b);
    ContainsAt(a + m + b, m, |a|);
  }

  /** Any text laid out like the legacy template, with anything after it, shows both markers. */
  lemma MarkersShown(intro: string, m1: string, t1: string, m2: string, t2: string, rest: string, t: string, tail: string)
    ensures Contains(intro + (m1 + t1) + (m2 + t2) + rest + t + tail, m1)
    ensures Contains(intro + (m1 + t1) + (m2 + t2) + rest + t + tail, m2)
  {
    var p := intro + (m1 + t1) + (m2 + t2) + rest + t + tail;
    assert p == intro + m1 + (t1 + m2 + t2 + rest + t + tail);
    ContainsMiddle(intro, m1, t1 + m2 + t2 + rest + t + tail);
    assert p == (intro + m1 + t1) + m2 + (t2 + rest + t + tail);
    ContainsMiddle(intro + m1 + t1, m2, t2 + rest + t + tail);
  }

  /** The legacy prompt shows both markers the legacy grammar of the output parser looks for. */
  lemma LegacyPromptHasMarkers(taskDescription: string)
    ensures Contains(LegacyPrompt(taskDescription), OutputParser.ThinkStart)
    ensures Contains(LegacyPrompt(taskDescription), OutputParser.ActionStart)
  {
    MarkersShown(LegacyIntro, OutputParser.ThinkStart, ThinkText, OutputParser.ActionStart, ActionText, LegacyActions, taskDescription, "\n");
  }

  /** The Qwen3 prompt shows the instruction after its label and the previous actions, or "None", after theirs. */
  lemma Qwen3PromptShows(taskDescription: string, previousActions: Option<string>)
    ensures Contains(Qwen3Prompt(taskDescription, previousActions), InstructionLabel + taskDescription)
    ensures Contains(Qwen3Prompt(taskDescription, previousActions), PreviousLabel + Shown(previousActions))
  {
    TwoShown(Qwen3Lead, InstructionLabel, taskDescription, "\n\n", PreviousLabel, Shown(previousActions), "\n");
  }

  /** Any text laid out like the Qwen3 template shows both labelled fields. */
  lemma TwoShown(lead: string, l1: string, t1: string, sep: string, l2: string, t2: string, end: string)
    ensures Contains(lead + l1 + t1 + (sep + l2 + t2 + end), l1 + t1)
    ensures Contains(lead + l1 + t1 + (sep + l2 + t2 + end), l2 + t2)
  {
    var p := lead + l1 + t1 + (sep + l2 + t2 + end);
    assert p == lead + (l1 + t1) + (sep + l2 + t2 + end);
    ContainsMiddle(lead, l1 + t1, sep + l2 + t2 + end);
    assert p == (lead + l1 + t1 + sep) + (l2 + t2) + end;
    ContainsMiddle(lead + l1 + t1 + sep, l2 + t2, end);
  }

  lemma FilledInjective(h: string, t1: string, t2: string, tail: string)
    requires h + t1 + tail == h + t2 + tail
    ensures t1 == t2
  {
    assert |t1| == |t2|;
    FilledAt(h, t1, tail);
    FilledAt(h, t2, tail);
  }

  /** The legacy prompt determines the instruction. */
  lemma LegacyInjective(t1: string, t2: string)
    requires LegacyPrompt(t1) == LegacyPrompt(t2)
    ensures t1 == t2
  {
    FilledInjective(LegacyHead, t1, t2, "\n");
  }

  /** With the same previous actions, the Qwen3 prompt determines the instruction. */
  lemma Qwen3Injective(t1: string, t2: string, previousActions: Option<string>)
    requires Qwen3Prompt(t1, previousActions) == Qwen3Prompt(t2, previousActions)
    ensures t1 == t2
  {
    FilledInjective(Qwen3Lead + InstructionLabel, t1, t2, Qwen3Tail(previousActions));
  }
}
