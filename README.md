# oagi-python core, modelled in Dafny

This project models the core of the OAGI Python SDK. In that SDK a vision-language
model looks at screenshots and answers with actions on the model's 0..1000 coordinate
grid. The SDK parses those answers, converts them into device calls and runs them.

One Dafny module per source file of the core:

- `ActionModel`: the action record and its type enum, and the recognizers for
  coordinate, drag, scroll and press-click arguments (`src/oagi/types/models/action.py`).
- `OutputParser`: parsing the model's raw text in the legacy, qwen3 and auto modes.
  This covers action splitting, `<tool_call>` blocks and argument coercion
  (`src/oagi/utils/output_parser.py`).
- `PyautoguiConverter`, `ConverterBase`, `OagiConverter`, `ClaudeConverter`,
  `GeminiConverter` and `Qwen3Converter`: the converters from each model's actions to
  pyautogui command strings, and `action_string_to_step` (`src/oagi/converters/`).
  The action records of `src/oagi/converters/models.py` are the converters' datatypes.
- `PyautoguiHandler`, `YdotoolHandler` and `Wayland`: the handlers that run actions.
  The device is an event trace. For ydotool it is the list of command lines run
  (`src/oagi/handler/`).
- `Keycodes`: the ydotool key table (`src/oagi/handler/_ydotool.py`).
- `Exporters`: the Markdown and HTML exporters of the observer
  (`src/oagi/agent/observer/exporters.py`).
- `Memory` and `LlmPlanner`: the planner's memory (a class updated in place) and the
  planner's answer parsing and context formatting (`src/oagi/agent/planner/`).
- `ClientBase`, `ServerModels` and `PromptBuilder`: the client's request and response
  helpers, the Socket.IO event records' validation, and the prompt builder.
- Support modules, shared by the rest:
  - `Wrappers`: Option, Result and the SDK's error kinds.
  - `Text`: Python string methods.
  - `Decimals`: `float()` and `str()` of floats, on exact decimals.
  - `Json`: decoded JSON values and `repr`.
  - `CapsLock`: the caps-lock manager.
  - `Scaling`: the coordinate scaler.

Code that changes state step by step is written as classes and methods with loops.
This covers the converters' batch loops and cursor fields, the handlers, the ydotool
wrapper, and the planner memory. Each method is proved against a function that gives
its result.

`json.loads`, `time.time()`, the screen size and the device are inputs or traces:
- a decoding is passed in as an `Option<Json>`, None where Python raises
  `JSONDecodeError`;
- the screen comes from a list of monitors;
- device calls are appended to a trace.

Where the tests and the code disagree, the model follows the code. The qwen3
parser mode is one example: tests/utils/test_output_parser.py:92-99 expects a fallback
that src/oagi/utils/output_parser.py:33-34 does not make.

## Model

| member | source | states |
|---|---|---|
| ActionModel.FromName | src/oagi/types/models/action.py:16-31 | the kind read from a string has that string as its value; a string that is no kind's value yields None, where `ActionType(value)` raises |
| ActionModel.ActionTypeClosed | src/oagi/types/models/action.py:16-31 | there are exactly fifteen kinds, every kind is listed, and their fifteen values are pairwise distinct |
| ActionModel.FromNameOfName | src/oagi/types/models/action.py:16-31 | reading a kind's value gives the same kind back |
| ActionModel.MakeAction | src/oagi/types/models/action.py:34-39 | an action is built exactly when its count is at least 1; a smaller count is a ValidationError |
| ActionModel.DefaultAction | src/oagi/types/models/action.py:37-39 | an action built without a count has count 1 and is valid |
| ActionModel.Repeats | src/oagi/types/models/action.py:37-39 | `count or 1` is at least 1 for a valid action and equals the count whenever one is given |
| ActionModel.ParseCoordsAccepts | src/oagi/types/models/action.py:51-54 | for all digit runs d1 and d2, white space sp and any rest that does not go on with a digit, "d1,sp d2" + rest parses as the values of d1 and d2 |
| ActionModel.ParseCoordsSpec | src/oagi/types/models/action.py:42-54 | for every text: a parse succeeds exactly when the text starts with digits, a comma, white space and digits, and then gives those two numbers; any other text is None |
| ActionModel.ParseDragCoordsAccepts | src/oagi/types/models/action.py:66-74 | for all four digit runs, white space after each comma and any rest that does not go on with a digit, the text parses as the four numbers' values |
| ActionModel.ParseDragCoordsSpec | src/oagi/types/models/action.py:57-74 | for every text: a parse succeeds exactly when the text starts with four comma-separated digit runs, white space allowed after each comma, and then gives the four numbers; any other text is None |
| ActionModel.ParseScroll | src/oagi/types/models/action.py:88-92 | a parsed direction is always "up" or "down" |
| ActionModel.ParseScrollAccepts | src/oagi/types/models/action.py:86-92 | for all digit runs d1 and d2, white space after each comma, a word w and any rest that does not go on with a word character, the text gives the two numbers and the lower-cased w when that is "up" or "down", and None otherwise |
| ActionModel.ParseScrollSpec | src/oagi/types/models/action.py:77-92 | for every text: a parse succeeds exactly when the text starts with two digit runs and a word, comma-separated, white space allowed after each comma, and the word lower-cased is "up" or "down"; it then gives the numbers and that direction; any other text is None |
| ActionModel.ParseCoordsOfText | src/oagi/types/models/action.py:51-54 | the text "x, y", followed by anything that does not start with a digit, reads back as (x, y) |
| ActionModel.ParseDragCoordsOfText | src/oagi/types/models/action.py:66-74 | the text "x1, y1, x2, y2" reads back as the four numbers |
| ActionModel.ParseScrollOfText | src/oagi/types/models/action.py:86-92 | "x, y, dir" reads back with the direction lower-cased, and is refused unless that is "up" or "down" |
| ActionModel.NonBlankStrs | src/oagi/types/models/action.py:115 | the list comprehension keeps at most as many keys as it was given |
| ActionModel.NonBlankStrsClean | src/oagi/types/models/action.py:115 | every key kept is stripped and non-blank |
| ActionModel.NonBlankStrsAppend | src/oagi/types/models/action.py:115 | the comprehension keeps order: the keys of two lists joined are the keys of the first, then those of the second |
| ActionModel.NonBlankStrsMember | src/oagi/types/models/action.py:115 | a key is returned exactly when it is non-empty and is the stripped `str()` of some entry |
| ActionModel.NonBlankStrsOfKeys | src/oagi/types/models/action.py:113-115 | a list of keys that are already stripped and non-blank comes back unchanged |
| ActionModel.PressKeysClean | src/oagi/types/models/action.py:113-119 | whatever `keys` holds (a list, a string, anything else), the keys returned are stripped and non-blank |
| ActionModel.PressKeysOfKeys | src/oagi/types/models/action.py:113-119 | a list of clean keys is returned unchanged |
| ActionModel.CoordinatePair | src/oagi/types/models/action.py:125-133 | a coordinate pair is produced only from a list of at least two entries |
| ActionModel.CoordinatePairOfInts | src/oagi/types/models/action.py:129-131 | `int(float(v))` keeps two integers as they are |
| ActionModel.ClickTypesAreWords | src/oagi/types/models/action.py:121-122 | the four accepted click types are non-empty lower-case words, so `strip().lower()` leaves them unchanged |
| ActionModel.ParsePressClick | src/oagi/types/models/action.py:95-135 | a parse succeeds only when the payload decoded to an object, and the click type it returns is one of the four accepted ones |
| ActionModel.ParsePressClickKeysClean | src/oagi/types/models/action.py:113-119 | a parsed press-click never carries a blank or unstripped key |
| ActionModel.ParsePressClickOfPayload | src/oagi/types/models/action.py:95-135 | the payload written for clean keys, an accepted click type and a point parses back to exactly those keys, click type and point |
| CapsLock.Transform | tests/test_pyautogui_action_handler.py:217-244 | the typed text has the input's length, and each character is upper-cased exactly when session caps lock is on |
| CapsLock.CapsLockManager.constructor | tests/test_pyautogui_action_handler.py:217-221 | a new manager keeps its mode and starts with caps lock off |
| CapsLock.CapsLockManager.Toggle | tests/test_pyautogui_action_handler.py:224-243 | `toggle` flips the flag in session mode and leaves it unchanged in system mode |
| CapsLock.CapsLockManager.Reset | tests/test_pyautogui_action_handler.py:253-270 | `reset` turns caps lock off |
| CapsLock.CapsLockManager.TransformText | tests/test_pyautogui_action_handler.py:217-244 | `transform_text` types the text as the manager's mode and flag dictate |
| CapsLock.TransformKeepsNonLower | tests/test_pyautogui_action_handler.py:222-229 | text without lower-case letters, such as "123!@#", is typed unchanged |
| CapsLock.TransformIdempotent | tests/test_pyautogui_action_handler.py:217-234 | upper-casing twice is the same as upper-casing once |
| CapsLock.SystemModeIdentity | tests/test_pyautogui_action_handler.py:236-244 | system mode never changes the typed text |
| CapsLock.SessionCapsUpper | tests/test_pyautogui_action_handler.py:224-229 | with session caps lock on, the typed text has no lower-case ASCII letter |
| CapsLock.SessionScenario | tests/test_pyautogui_action_handler.py:217-234 | the session transcript: "Hello World" before, "HELLO WORLD" after one toggle, "Hello World" after the second |
| Keycodes.Keycode | src/oagi/handler/_ydotool.py:14-158 | a key that has a code has a positive one |
| Keycodes.SingleCharKey | src/oagi/handler/_ydotool.py:14-158 | a one-character key is looked up among the single-character entries |
| Keycodes.ShiftedSharesCode | src/oagi/handler/_ydotool.py:43-65 | every shifted symbol has a code, the same as the key it is typed with ("!" and "1", "_" and "-") |
| Keycodes.EnterKeys | src/oagi/handler/_ydotool.py:92-95 | "enter", "return", "\r" and "\n" all have code 28 |
| Keycodes.PageKeys | src/oagi/handler/_ydotool.py:139-142 | "pageup" and "pgup" have code 104; "pagedown" and "pgdn" have 109 |
| Keycodes.EscapeAndDelete | src/oagi/handler/_ydotool.py:98-148 | "esc" and "escape" have code 1; "del" and "delete" have 111 |
| Keycodes.LowerCaseLetters | src/oagi/handler/_ydotool.py:16-41 | every lower-case letter has a code |
| Keycodes.UpperCaseHasNoCode | src/oagi/handler/_ydotool.py:14-158 | the lookup is exact: a key starting with an upper-case letter has no code |
| Keycodes.ExactSpelling | src/oagi/handler/_ydotool.py:16-116 | "a", "enter" and "f1" have codes, while "A", "ENTER" and "F1" have none |
| Scaling.RoundHalfEven | src/oagi/handler/pyautogui_action_handler.py:84-90 | Python's `round`: the integer within one half of the value, the even one on a tie |
| Scaling.RoundOfInteger | src/oagi/handler/pyautogui_action_handler.py:84-90 | rounding an integer gives it back |
| Scaling.RoundMonotone | src/oagi/handler/pyautogui_action_handler.py:84-90 | rounding never reverses the order of two values |
| Scaling.Clamp | src/oagi/handler/pyautogui_action_handler.py:84-90 | the result lies in the range, and a value already in the range is unchanged |
| Scaling.Scaler.WithTargetSize | src/oagi/handler/pyautogui_action_handler.py:78-81 | `set_target_size` changes the target size and nothing else |
| Scaling.Scaler.WithOrigin | src/oagi/handler/pyautogui_action_handler.py:79-82 | `set_origin` changes the origin and nothing else |
| Scaling.Scaler.Scale | src/oagi/handler/pyautogui_action_handler.py:84-90 | the point lands on the target screen; with the fail-safe guard it keeps off the outermost row and column |
| Scaling.ScaleAxis | src/oagi/handler/pyautogui_action_handler.py:84-90 | an axis lands in [0, target - 1], and in [1, target - 2] with the fail-safe guard |
| Scaling.FailsafeOnlyAtEdges | src/oagi/handler/pyautogui_action_handler.py:86-88 | away from the screen's edges, the fail-safe guard changes nothing |
| Scaling.ScaleAxisNearest | src/oagi/handler/pyautogui_action_handler.py:84-90 | without the guard, a non-negative coordinate lands on its nearest pixel, or on the last pixel when it lies beyond the screen |
| Scaling.ScaleAxisMonotone | src/oagi/handler/pyautogui_action_handler.py:84-90 | a larger coordinate never lands on an earlier pixel |
| Scaling.CornerSafeTable | tests/test_pyautogui_action_handler.py:273-304 | the ten corner and middle points of the 1920x1080 table land where the test expects |
| Exporters.ChainAppend | src/oagi/agent/observer/exporters.py:272-280 | the chain of replacements works piecewise: escaping `a + b` is escaping `a`, then `b` |
| Exporters.ChainOne | src/oagi/agent/observer/exporters.py:275-279 | on one character the chain gives that character's entity: no later replacement touches an entity an earlier one wrote |
| Exporters.ChainIsEscape | src/oagi/agent/observer/exporters.py:272-280 | the five chained `replace` calls equal escaping every character on its own |
| Exporters.EscapedHasNoMarkup | src/oagi/agent/observer/exporters.py:272-280 | escaped text contains no `<`, `>`, `"` or `'` |
| Exporters.EscapePlain | src/oagi/agent/observer/exporters.py:275-279 | text without any of the five special characters is left unchanged |
| Exporters.EntityEscapedTwice | src/oagi/agent/observer/exporters.py:275 | because `&` is replaced first, an existing entity is escaped again: "&amp;" becomes "&amp;amp;" |
| Exporters.CountSuffix | src/oagi/agent/observer/exporters.py:75-79 | the " (xN)" suffix appears exactly when the count is given and above 1 |
| Exporters.Capitalize | src/oagi/agent/observer/exporters.py:112 | with ASCII case mapping, `capitalize()` gives the same text up to case and of the same length, with no lower-case letter first and no upper-case letter after |
| Exporters.PhaseTitle | src/oagi/agent/observer/exporters.py:107-112 | initial, reflection and summary have fixed titles; any other phase is capitalized |
| Exporters.BaseName | src/oagi/agent/observer/exporters.py:60 | `Path(dir).name` is no longer than the directory path, holds no '/' and is never "." |
| Exporters.BaseNameOfComponent | src/oagi/agent/observer/exporters.py:60 | the name of `p/name`, and of `name` alone, is `name`, for every component other than "" and "." |
| Exporters.BaseNameIgnoresTail | src/oagi/agent/observer/exporters.py:60 | a trailing "/" or "/." does not change the name, as pathlib drops both |
| Exporters.CurrentDirLinksFileName | src/oagi/agent/observer/exporters.py:60 | `Path(".").name` is "", so with images in "." an image is linked by its file name alone |
| Exporters.LastComponent | src/oagi/agent/observer/exporters.py:60 | the last path component contains no '/' |
| Exporters.ActionLines | src/oagi/agent/observer/exporters.py:72-82 | one line per planned action, in order |
| Exporters.ImageLines | src/oagi/agent/observer/exporters.py:54-67 | at most one line; a file is written exactly when the image is bytes and a directory is given, and it holds those bytes |
| Exporters.StepBodyLines | src/oagi/agent/observer/exporters.py:51-82 | a step always opens with its heading and its time line |
| Exporters.EventLines | src/oagi/agent/observer/exporters.py:46-135 | one event writes at most one image file |
| Exporters.Markdown | src/oagi/agent/observer/exporters.py:43-135 | the report always starts with "# Agent Execution Report\n" |
| Exporters.ExportToMarkdown | src/oagi/agent/observer/exporters.py:24-137 | the loop writes the concatenated lines of the report and the image files, in event order |
| Exporters.ImageEventSilent | src/oagi/agent/observer/exporters.py:103-104 | an image event adds neither lines nor files to the report |
| Exporters.StepImageFile | src/oagi/agent/observer/exporters.py:54-61 | a step writes an image exactly when it carries bytes and a directory is given; the file is named `step_{n}.png` |
| Exporters.PlanImageFile | src/oagi/agent/observer/exporters.py:115-123 | a plan writes an image exactly when it carries non-empty bytes and a directory is given; the file is numbered one past the images already written |
| Exporters.ActionLineNotComplete | src/oagi/agent/observer/exporters.py:80-85 | no planned-action line can be mistaken for the completion line |
| Exporters.StepBodyNotComplete | src/oagi/agent/observer/exporters.py:51-85 | the line before the completion line is never itself a completion line |
| Exporters.StepCompleteIffStop | src/oagi/agent/observer/exporters.py:84-85 | a step's Markdown ends with "**Status:** Task Complete" exactly when the step stops |
| Exporters.ActionItems | src/oagi/agent/observer/exporters.py:182-191 | one list item per planned action, in order |
| Exporters.ImagePart | src/oagi/agent/observer/exporters.py:161-170 | a screenshot contributes at most one part |
| Exporters.PlannedParts | src/oagi/agent/observer/exporters.py:179-192 | the action list appears exactly when there are planned actions, and then ends with "</ul></div>" |
| Exporters.StepHead | src/oagi/agent/observer/exporters.py:157-159 | a step's block opens with three parts, the third being its time stamp |
| Exporters.ExportToHtml | src/oagi/agent/observer/exporters.py:140-269 | the loop writes the fixed header, every event's parts in order, then the fixed footer |
| Exporters.StepBodyLastNotComplete | src/oagi/agent/observer/exporters.py:157-192 | the body of a step's block never ends with the completion part |
| Exporters.HtmlCompleteIffStop | src/oagi/agent/observer/exporters.py:194-197 | a step's HTML block closes with "</div>", preceded by the "Task Complete" part exactly when the step stops |
| Exporters.LogMessageEscaped | src/oagi/agent/observer/exporters.py:212-216 | a log message is written escaped, so user text cannot open a tag |
| PromptBuilder.Shown | src/oagi/utils/prompt_builder.py:70 | the previous actions are shown as "None" exactly when they are absent, empty or the text "None" itself |
| PromptBuilder.BuildPrompt | src/oagi/utils/prompt_builder.py:49-75 | "legacy" and "qwen3" fill their own template; every other mode, and only those, raises the ValueError with the source's message |
| PromptBuilder.ModeDefaults | src/oagi/utils/prompt_builder.py:52-71 | without a mode the Qwen3 template is used; absent and empty previous actions give the same prompt; the legacy prompt does not depend on the previous actions |
| PromptBuilder.LegacyPromptHasMarkers | src/oagi/utils/prompt_builder.py:13-37 | the legacy prompt shows the think-start and action-start markers that the legacy output grammar looks for |
| PromptBuilder.Qwen3PromptShows | src/oagi/utils/prompt_builder.py:40-71 | the Qwen3 prompt shows the instruction after "Instruction: " and the previous actions, or "None", after "Previous actions:\n" |
| PromptBuilder.LegacyInjective | src/oagi/utils/prompt_builder.py:64-65 | different instructions give different legacy prompts |
| PromptBuilder.Qwen3Injective | src/oagi/utils/prompt_builder.py:67-71 | with the same previous actions, different instructions give different Qwen3 prompts |
| ClientBase.OrEnv | src/oagi/client/base.py:40-41 | a truthy argument is used as given; otherwise the environment variable, when it is set |
| ClientBase.NewClientChecks | src/oagi/client/base.py:35-57 | a base URL that is falsy both as argument and in the environment raises the base-URL ConfigurationError (checked first), then the same for the API key; otherwise the client keeps the key, a 60-second timeout and the base URL without its trailing slashes |
| ClientBase.TrimSlashesSpec | src/oagi/client/base.py:53 | `rstrip("/")` keeps a prefix of the URL, drops only slashes, and leaves no slash at the end |
| ClientBase.TrimSlashesIdempotent | src/oagi/client/base.py:53 | trimming the stored base URL again changes nothing |
| ClientBase.SlashesOnlyStoredEmpty | src/oagi/client/base.py:44-53 | a base URL of only slashes passes the check, which runs before trimming, and is stored empty |
| ClientBase.BuildHeaders | src/oagi/client/base.py:59-65 | `x-api-version` is present exactly when the version is truthy and `x-api-key` exactly when the key is; each holds its value, and no other header is set |
| ClientBase.ConstructedClientSendsKey | src/oagi/client/base.py:47-64 | a client the constructor accepted always sends its key |
| ClientBase.BuildPayload | src/oagi/client/base.py:67-99 | the payload starts with `model` and `messages`, and has one more binding for each optional value that is given |
| ClientBase.PayloadFields | src/oagi/client/base.py:87-99 | each key maps to its value; `task_description` and `task_id` are present exactly when given; the temperature appears under `sampling_params` exactly when given; no other key is present |
| ClientBase.ExceptionClass | src/oagi/client/base.py:128-139 | statuses of 500 and up map to ServerError; 401, 404, 422 and 429 map to their own classes; every other status maps to APIError, in both directions |
| ClientBase.HandleResponseError | src/oagi/client/base.py:101-126 | a body without `error` fails to validate; otherwise the error raised has the status's class and carries the status |
| ClientBase.ProcessResponse | src/oagi/client/base.py:159-186 | success exactly for a 200 with a valid body and no error detail; a non-JSON body raises APIError; a non-200 raises its mapped class with the detail's message and code; a 200 with an error detail raises APIError with status 200 |
| ClientBase.Non200NeverSucceeds | src/oagi/client/base.py:163-164 | no JSON response with a status other than 200 succeeds; it fails validation exactly when it carries no `error` member |
| ServerModels.ValidateInit | src/oagi/server/models.py:9-12 | an init event is accepted exactly when its temperature, if given, lies in [0, 2]; otherwise `temperature` is the failing field |
| ServerModels.InitDefaults | src/oagi/server/models.py:11-12 | with its defaults, an init event asks for "vision-model-v1" at temperature 0.0 and is accepted |
| ServerModels.Fault | src/oagi/server/models.py:16-55 | a field is reported exactly when its value fails its constraint |
| ServerModels.ValidateEvent | src/oagi/server/models.py:16-55 | an action event is accepted exactly when every constrained field holds (index ≥ 0, total ≥ 1, grid coordinates, click type, direction, counts ≥ 1, duration ≥ 0); a rejection names at least one field, and names the index or the total exactly when that one fails |
| ServerModels.BodyFaultsNames | src/oagi/server/models.py:21-55 | a body reports no field exactly when it meets its own constraints, and never reports a base-class field |
| ServerModels.EventDefaultsValid | src/oagi/server/models.py:24-47 | the defaults are valid: click type "single", hotkey count 1 and scroll count 1 give accepted events |
| ServerModels.IndexNotBoundedByTotal | src/oagi/server/models.py:16-18 | no constraint ties the index to the total: index 5 of a one-action batch is accepted |
| ServerModels.OffGridClickRejected | src/oagi/server/models.py:21-24 | a click whose x lies off the 0..1000 grid is rejected, naming only `x` |
| ServerModels.ValidateStatus | src/oagi/server/models.py:79-85 | a session status is accepted exactly when its status is initialized, running, completed or failed |
| ServerModels.NegativeActionsExecutedAccepted | src/oagi/server/models.py:84 | the executed-action count is unconstrained: -1 is accepted |
| OutputParser.SplitActions | src/oagi/utils/output_parser.py:312-349 | the character loop returns exactly the stripped, non-blank pieces between the `&` characters at parenthesis depth zero |
| OutputParser.SplitClean | src/oagi/utils/output_parser.py:337-348 | every piece the splitter returns is non-empty and has no surrounding white space |
| OutputParser.SplitKeepsNested | tests/utils/test_output_parser.py:149-151 | a block whose every `&` is inside parentheses comes back as one stripped piece, or no piece when blank |
| OutputParser.JoinPieces | src/oagi/utils/output_parser.py:329-347 | the raw pieces joined with `&` give back the block: the splitter loses nothing but the cut characters |
| OutputParser.PiecesHaveNoCut | src/oagi/utils/output_parser.py:336-340 | no piece contains an `&` at depth zero: every top-level `&` was cut |
| OutputParser.MatchCall | src/oagi/utils/output_parser.py:376-381 | a match has a non-empty name, and the name, the payload and the two parentheses fit in the text |
| OutputParser.ParseAction | src/oagi/utils/output_parser.py:352-430 | any action produced satisfies the Action constraint (count at least 1); the only error is the validation error of a count below 1 |
| OutputParser.ParseActionCases | src/oagi/utils/output_parser.py:376-430 | unknown names give None; `type` keeps its payload verbatim with count 1; hotkey and scroll take the count read from their payload and fail below 1; every other kind gets the stripped payload and count 1 |
| OutputParser.HotkeyArgsOfCount | src/oagi/utils/output_parser.py:398-406 | `hotkey(key, n)` reads back the stripped key and the integer n after the last comma |
| OutputParser.HotkeyArgsWithoutComma | src/oagi/utils/output_parser.py:398-410 | a hotkey payload without a comma is the whole stripped key with count 1 |
| OutputParser.ScrollArgsOfFields | src/oagi/utils/output_parser.py:412-424 | `scroll(x, y, dir, c)` becomes the argument "x,y,dir" of stripped fields and the count c, which is 1 when c is not an integer |
| OutputParser.BetweenIsShortest | src/oagi/utils/output_parser.py:57-63 | the lazy `(.*?)` group never contains the closing tag |
| OutputParser.ParseAllValid | src/oagi/utils/output_parser.py:72-75 | every action collected from the pieces satisfies the Action constraint |
| OutputParser.ParseAllPrefixError | src/oagi/utils/output_parser.py:72-75 | the first piece that fails validation aborts the whole parse with its error, whatever follows |
| OutputParser.HasTerminalPush | src/oagi/utils/output_parser.py:76-77 | appending an action adds a FINISH or FAIL exactly when the appended action is one |
| OutputParser.ParsePieces | src/oagi/utils/output_parser.py:72-77 | the loop over the pieces equals the piece-by-piece parse, and `stop` is set exactly when some collected action is FINISH or FAIL |
| OutputParser.ParseLegacyOutput | src/oagi/utils/output_parser.py:54-79 | the legacy step: its `stop` holds exactly when some action is terminal, and every action is valid |
| OutputParser.ActionSummary | src/oagi/utils/output_parser.py:114-117 | the summary is always stripped text |
| OutputParser.ActionSummaryOfLine | src/oagi/utils/output_parser.py:114-117 | a single-line `Action: a` at the head of the output is read back as `a` |
| OutputParser.StripCodeFence | src/oagi/utils/output_parser.py:120-125 | the result has no surrounding white space |
| OutputParser.StripCodeFenceOfFenced | src/oagi/utils/output_parser.py:120-125 | a payload fenced as ```` ```json ... ``` ```` comes out of the fence unchanged |
| OutputParser.StripCodeFenceUnfenced | src/oagi/utils/output_parser.py:120-125 | a stripped payload that does not start with a fence is returned unchanged |
| OutputParser.ToolCallContents | src/oagi/utils/output_parser.py:98-102 | every block content found has no surrounding white space |
| OutputParser.ToolCallContentsSingle | src/oagi/utils/output_parser.py:98-102 | text made of one tagged block whose body holds no `<` yields exactly that body |
| OutputParser.ToolCallContentsNone | src/oagi/utils/output_parser.py:98-102 | without an opening tag, in any letter case, no block is found |
| OutputParser.CoercePositiveInt | src/oagi/utils/output_parser.py:281-286 | the result is at least 1: the integer value when it is at least 1, else 1, and 1 when the value is missing or not an integer |
| OutputParser.CoerceFloat | src/oagi/utils/output_parser.py:289-293 | the float value when there is one, and the default when the value is missing or not a number |
| OutputParser.ExtractKeys | src/oagi/utils/output_parser.py:261-267 | every key extracted is non-empty stripped text; for a list, a key is returned exactly when it is the non-blank stripped `str()` of some entry; for a string, exactly when it is the non-blank stripped form of some piece split at `+` and `,`; anything else gives no key |
| OutputParser.ExtractKeysListOrder | src/oagi/utils/output_parser.py:262-263 | listed keys keep their order: the keys of two lists joined are those of the first, then those of the second |
| OutputParser.ExtractKeysTextOrder | src/oagi/utils/output_parser.py:264-266 | a key string is read piece by piece in order: the first piece, stripped and unless blank, comes before the keys of the rest |
| OutputParser.ScrollDirectionAndCount | src/oagi/utils/output_parser.py:296-309 | the direction is always up or down; a given up or down is kept, otherwise the direction follows the sign of the count; the count is the magnitude of the signed count, and 1 when that is 0 |
| OutputParser.PointTextReadsBack | src/oagi/utils/output_parser.py:181 | the "x, y" written for a point with non-negative coordinates is read back by `parse_coords` as that point |
| OutputParser.PressClickFields | src/oagi/utils/output_parser.py:212-224 | a press_click read from a call has a known click type and clean keys |
| OutputParser.PressClickReadsBack | src/oagi/utils/output_parser.py:225-237 | the JSON argument written for press_click is read back by `parse_press_click` as the same keys, click type and point |
| OutputParser.ArgumentsAction | src/oagi/utils/output_parser.py:155-258 | every action built from a call's arguments is valid, and a call without an action name builds none |
| OutputParser.ToolCallAction | src/oagi/utils/output_parser.py:140-153 | a call to a tool other than computer_use builds no action; any action built is valid |
| OutputParser.TerminateMapping | src/oagi/utils/output_parser.py:253-256 | terminate gives FAIL exactly when the status reads "failure" and FINISH otherwise |
| OutputParser.PointActionReadsBack | src/oagi/utils/output_parser.py:175-210 | each point action carries its point in the form `parse_coords` reads back |
| OutputParser.ScrollActionReadsBack | src/oagi/utils/output_parser.py:240-247 | a scroll call always yields an argument `parse_scroll` accepts, with direction up or down and count at least 1 |
| OutputParser.ToolCallActions | src/oagi/utils/output_parser.py:97-108 | every action collected from the blocks is valid |
| OutputParser.MalformedBlockSkipped | src/oagi/utils/output_parser.py:103-105 | a block whose JSON does not decode adds no action |
| OutputParser.CollectToolCallActions | src/oagi/utils/output_parser.py:97-108 | the loop over the blocks equals the block-by-block collection |
| OutputParser.Qwen3Output | src/oagi/utils/output_parser.py:110-111 | `stop` holds exactly when some action is FINISH or FAIL |
| OutputParser.ParseQwen3Output | src/oagi/utils/output_parser.py:82-111 | the Qwen3 step: `stop` exactly when some action is terminal, and every action valid |
| OutputParser.AnyTerminal | src/oagi/utils/output_parser.py:110 | the flag is set exactly when some action is FINISH or FAIL |
| OutputParser.SinglePointCall | src/oagi/utils/output_parser.py:185-200 | one block holding a computer_use point action yields exactly that action with count 1, and the task does not stop |
| OutputParser.Qwen3Mode | src/oagi/utils/output_parser.py:33-34 | in qwen3 mode a single non-terminal action is returned without stopping |
| OutputParser.SingleBlockOutput | src/oagi/utils/output_parser.py:97-108 | a lone block whose call converts to an action yields exactly that action |
| OutputParser.PointCallAction | src/oagi/utils/output_parser.py:185-200 | a computer_use call naming a point action with a point gives that kind, "x, y" and count 1 |
| OutputParser.SingleBlockActions | src/oagi/utils/output_parser.py:103-108 | one unfenced block that decodes to a convertible call gives exactly its action |
| OutputParser.LeftClickExample | tests/utils/test_output_parser.py:18-33 | the left click at (300, 150) gives one CLICK with argument "300, 150" and count 1, and does not stop |
| OutputParser.ToolCallDispatch | src/oagi/utils/output_parser.py:141-153 | a call to computer_use, or to no named tool, is converted by its arguments object |
| OutputParser.PointDispatch | src/oagi/utils/output_parser.py:185-200 | point actions are built from the point and the call's coerced count |
| OutputParser.ParseRawOutput | src/oagi/utils/output_parser.py:20-51 | qwen3 and legacy modes use one grammar each and other modes are a ValueError; auto mode takes a productive Qwen3 step when a tool-call tag is present, else the legacy step when a legacy marker is present, else a productive Qwen3 step, else the legacy step |
| OutputParser.LegacyWithoutMarkers | src/oagi/utils/output_parser.py:54-79 | without legacy markers the legacy grammar gives the empty step |
| OutputParser.AutoUnproductiveIsEmpty | src/oagi/utils/output_parser.py:37-47 | in auto mode output neither grammar can use gives the empty step, not an error |
| OutputParser.Qwen3ModeIgnoresLegacyTags | src/oagi/utils/output_parser.py:33-34 | in qwen3 mode legacy-tagged output yields no action: the code does not fall back to the legacy grammar |
| PyautoguiConverter.DefaultConfig | src/oagi/converters/pyautogui_action_converter.py:67-75 | the default configuration is valid: a 1920x1080 sandbox and a scroll step of 2 |
| PyautoguiConverter.DenormalizeCoords | src/oagi/converters/pyautogui_action_converter.py:155-188 | a point is accepted exactly when both axes lie in [0, 1000], otherwise a ValueError; an accepted point lands on the sandbox, each axis on the pixel nearest its scaled value or the last pixel |
| PyautoguiConverter.Pixel | src/oagi/converters/pyautogui_action_converter.py:181-186 | one scaled axis lies on the sandbox and is the nearest pixel |
| PyautoguiConverter.DenormalizeTable | tests/test_oagi_action_converter.py:236-257 | (500, 300) scales to (960, 324), (1000, 1000) clamps to (1919, 1079), and points off the grid are ValueErrors |
| PyautoguiConverter.FloatOf | src/oagi/converters/pyautogui_action_converter.py:215-217 | succeeds exactly when the text is a number, with that number |
| PyautoguiConverter.CommaFields | src/oagi/converters/pyautogui_action_converter.py:210 | an empty argument has no field; otherwise the fields joined by commas give the argument back |
| PyautoguiConverter.ParseClickCoords | src/oagi/converters/pyautogui_action_converter.py:190-223 | success needs no " and "/" then " and at least two fields, and is the scaled point of the first two; every failure is a ValueError |
| PyautoguiConverter.PointOf | src/oagi/converters/pyautogui_action_converter.py:215-218 | succeeds exactly when both fields are numbers on the grid, with the scaled point |
| PyautoguiConverter.StripFloat | src/oagi/converters/pyautogui_action_converter.py:216-217 | stripping a field before reading it as a float changes nothing |
| PyautoguiConverter.ParseDragCoords | src/oagi/converters/pyautogui_action_converter.py:225-263 | success needs no " and "/" then " and exactly four fields, and gives both scaled points; every failure is a ValueError; all four fields are read as floats before either point is scaled, so the first field that is not a number is the one reported, even after an off-grid coordinate |
| PyautoguiConverter.DragPoints | src/oagi/converters/pyautogui_action_converter.py:255-257 | once the four numbers are read, the drag succeeds exactly when both points lie on the grid, with the two scaled points |
| PyautoguiConverter.GroupNamesFixed | src/oagi/converters/pyautogui_action_converter.py:276-286 | each alias group's canonical name maps to itself |
| PyautoguiConverter.SingleTargetsUnaliased | src/oagi/converters/pyautogui_action_converter.py:288-304 | the targets of the single aliases are not themselves aliases |
| PyautoguiConverter.CanonicalLowerWords | src/oagi/converters/pyautogui_action_converter.py:276-304 | every canonical key name is a lower-case word |
| PyautoguiConverter.CanonicalNamesAreFixed | src/oagi/converters/pyautogui_action_converter.py:265-306 | a canonical name is a fixed point of the alias table and already normalised |
| PyautoguiConverter.NormalizeKey | src/oagi/converters/pyautogui_action_converter.py:265-306 | the stripped lower-case key, replaced by its canonical name when it is an alias |
| PyautoguiConverter.NormalizeKeyIdempotent | src/oagi/converters/pyautogui_action_converter.py:265-306 | normalising a normalised key changes nothing |
| PyautoguiConverter.LowerStripped | src/oagi/converters/pyautogui_action_converter.py:271 | strip-then-lower is idempotent |
| PyautoguiConverter.HotkeyFields | src/oagi/converters/pyautogui_action_converter.py:357-361 | a combination always has at least one field |
| PyautoguiConverter.NormalizeKeys | src/oagi/converters/pyautogui_action_converter.py:358-361 | one normalised key per field, in order |
| PyautoguiConverter.InvalidKeys | src/oagi/converters/pyautogui_action_converter.py:317 | the unknown keys are exactly the non-empty keys outside the valid set, and there are none exactly when every key is known |
| PyautoguiConverter.Suggestions | src/oagi/converters/pyautogui_action_converter.py:321-334 | one hint per unknown key |
| PyautoguiConverter.ParseHotkey | src/oagi/converters/pyautogui_action_converter.py:340-366 | the normalised keys exactly when every non-empty key is valid, else a ValueError |
| PyautoguiConverter.Filled | src/oagi/converters/pyautogui_action_converter.py:403 | exactly the non-empty keys, never more than given |
| PyautoguiConverter.ReprAll | src/oagi/converters/pyautogui_action_converter.py:421 | one quoted key per key |
| PyautoguiConverter.MakeTypeCommand | tests/test_oagi_action_converter.py:79-106 | typable text is typed with PynputController and anything else pasted, each with the text quoted |
| PyautoguiConverter.ClickCommand | src/oagi/converters/pyautogui_action_converter.py:377-391 | a click command exactly when the point parses, naming the scaled point |
| PyautoguiConverter.DragCommands | src/oagi/converters/pyautogui_action_converter.py:393-398 | two commands exactly when the drag points parse |
| PyautoguiConverter.HotkeyCommands | src/oagi/converters/pyautogui_action_converter.py:400-423 | the key branch on the parsed keys; an invalid key is a ValueError that leaves the caps flag alone |
| PyautoguiConverter.KeysCommands | src/oagi/converters/pyautogui_action_converter.py:403-423 | the flag changes exactly for a lone caps lock in session mode, with no command; an empty combination is a ValueError; any other combination is one hotkey call of the filled keys |
| PyautoguiConverter.ScrollCommands | src/oagi/converters/pyautogui_action_converter.py:433-461 | success needs exactly three fields and a direction of up or down, and gives a move then the scroll of the configured amount in that direction; failures are ValueErrors |
| PyautoguiConverter.ScrollFields | src/oagi/converters/pyautogui_action_converter.py:440-461 | the point is scaled before the direction is checked; success gives the move and the scroll of that direction |
| PyautoguiConverter.ScrollTo | src/oagi/converters/pyautogui_action_converter.py:449-461 | a failed point or a direction other than up or down is a ValueError; otherwise the move and the scroll |
| PyautoguiConverter.WaitCommand | src/oagi/converters/pyautogui_action_converter.py:463-470 | a WAIT of the argument's seconds, or of the default for an empty argument, exactly when the argument is empty or a number; otherwise a ValueError |
| PyautoguiConverter.Single | src/oagi/converters/pyautogui_action_converter.py:368-492 | the outer parentheses are stripped first; only the hotkey branch can change the caps flag |
| PyautoguiConverter.Fixed | src/oagi/converters/pyautogui_action_converter.py:425-492 | FINISH gives DONE, FAIL gives FAIL, call_user nothing, type one typing command; the kinds with no branch are ValueErrors |
| PyautoguiConverter.TypedText | src/oagi/converters/pyautogui_action_converter.py:427 | the typed text neither starts nor ends with a quote |
| PyautoguiConverter.Pass | src/oagi/converters/pyautogui_action_converter.py:148-151 | one pass keeps the commands in order and marks only the last one, and only on the last pass |
| PyautoguiConverter.Times | src/oagi/converters/pyautogui_action_converter.py:141-146 | for a valid action the loop runs `count or 1` times, at least once |
| PyautoguiConverter.Commands | src/oagi/converters/pyautogui_action_converter.py:151 | the commands of the tagged list, in order |
| PyautoguiConverter.Repeat | src/oagi/converters/pyautogui_action_converter.py:146-151 | n copies hold n times as many commands |
| PyautoguiConverter.PassesCommands | src/oagi/converters/pyautogui_action_converter.py:146-151 | the first i passes hold i copies of the action's commands |
| PyautoguiConverter.PassesUnmarked | src/oagi/converters/pyautogui_action_converter.py:147-150 | no command is marked last before the final pass |
| PyautoguiConverter.ExpandShape | src/oagi/converters/pyautogui_action_converter.py:129-153 | n repetitions give n copies of the commands, and exactly the final command is marked last |
| PyautoguiConverter.RepeatCommands | src/oagi/converters/pyautogui_action_converter.py:145-153 | the repeat loop yields n copies of the commands with only the very last one marked last |
| PyautoguiConverter.Convertor | src/oagi/converters/pyautogui_action_converter.py:368 | the conversion function is total and agrees with the single-action conversion |
| PyautoguiConverter.Advance | src/oagi/converters/pyautogui_action_converter.py:97-121 | an aborted run stays aborted; a second FINISH/FAIL aborts; otherwise the action's commands are appended or its failure recorded |
| PyautoguiConverter.AdvanceConverted | src/oagi/converters/pyautogui_action_converter.py:112-121 | a converted action appends its repeated commands; a failing one is recorded with its label and message |
| PyautoguiConverter.Outcome | src/oagi/converters/pyautogui_action_converter.py:94-127 | an empty batch is empty; an aborted run is the duplicate error; a run that converted nothing is a RuntimeError; a success is never empty; the caps flag is the run's |
| PyautoguiConverter.AbortedStays | src/oagi/converters/pyautogui_action_converter.py:104-109 | once the duplicate check fires, later actions change nothing |
| PyautoguiConverter.RunStep | src/oagi/converters/pyautogui_action_converter.py:97 | one more action is one more loop iteration |
| PyautoguiConverter.TerminalRemembered | src/oagi/converters/pyautogui_action_converter.py:104-110 | after a terminal action the run has seen one, or has aborted |
| PyautoguiConverter.DuplicateTerminalAborts | src/oagi/converters/pyautogui_action_converter.py:104-109 | under any conversion, two FINISH/FAIL actions in a batch give the duplicate error |
| PyautoguiConverter.SilentRun | src/oagi/converters/pyautogui_action_converter.py:112-113 | non-terminal actions that convert to nothing leave the run empty |
| PyautoguiConverter.SilentSingleton | src/oagi/converters/pyautogui_action_converter.py:123-126 | a single non-terminal action converting to nothing is a RuntimeError |
| PyautoguiConverter.SecondTerminalRejected | tests/test_oagi_action_converter.py:172-179 | any batch with two FINISH/FAIL actions is a ValueError |
| PyautoguiConverter.CallUserSilent | src/oagi/converters/pyautogui_action_converter.py:482-485 | call_user yields no command and keeps the caps flag |
| PyautoguiConverter.CallUserOnlyIsRuntimeError | src/oagi/converters/pyautogui_action_converter.py:123-126 | a batch of call_user actions alone is a RuntimeError, though nothing failed |
| PyautoguiConverter.SilentBatch | src/oagi/converters/pyautogui_action_converter.py:123-126 | a one-action batch converting to nothing is a RuntimeError and keeps the caps flag the action left |
| PyautoguiConverter.LoneCapsLockToggles | src/oagi/converters/pyautogui_action_converter.py:410-418 | in session mode a lone caps lock yields nothing and flips the flag |
| PyautoguiConverter.HotkeyToggles | src/oagi/converters/pyautogui_action_converter.py:410-418 | the hotkey branch on a lone caps lock flips the session flag |
| PyautoguiConverter.KeysToggle | src/oagi/converters/pyautogui_action_converter.py:416-418 | the key branch on a lone caps lock in session mode flips the flag with no command |
| PyautoguiConverter.PyautoguiActionConvertor.ConvertSingleAction | src/oagi/converters/pyautogui_action_converter.py:368-492 | the commands and the new caps flag are those of the single-action conversion |
| PyautoguiConverter.PyautoguiActionConvertor.ConvertAction | src/oagi/converters/pyautogui_action_converter.py:129-153 | the single conversion is done once and repeated count times, with only the final command marked last |
| PyautoguiConverter.PyautoguiActionConvertor.Call | src/oagi/converters/pyautogui_action_converter.py:80-127 | the loop's result and caps flag are those of the batch function |
| PyautoguiConverter.WaitSeconds | src/oagi/converters/pyautogui_action_converter.py:513-518 | a match has the shape WAIT( number ) in any case, with a number of the pattern |
| PyautoguiConverter.ActionStringToStep | src/oagi/converters/pyautogui_action_converter.py:497-540 | blank text is exactly the error case; DONE/FAIL sleep 0; pyautogui code is the stripped text and carries a marker; a shell command is the stripped text and carries none |
| PyautoguiConverter.StepDispatch | src/oagi/converters/pyautogui_action_converter.py:502-540 | each of the five rules, in order, with the exact step it yields |
| PyautoguiConverter.DottedWaitNumber | src/oagi/converters/pyautogui_action_converter.py:514 | digits, a point and digits match the WAIT number |
| PyautoguiConverter.WaitRoundTrip | src/oagi/converters/pyautogui_action_converter.py:463-518 | the WAIT command emitted for a non-negative positional duration reads back as a sleep of that duration |
| PyautoguiConverter.PositionalWaitReadsBack | src/oagi/converters/pyautogui_action_converter.py:513-518 | the positional rendering of a non-negative duration matches the pattern and reads back |
| PyautoguiConverter.WaitOfNumber | src/oagi/converters/pyautogui_action_converter.py:513-518 | WAIT(m) for a pattern number m sleeps m seconds |
| PyautoguiConverter.WaitText | src/oagi/converters/pyautogui_action_converter.py:502-515 | WAIT(m) has nothing to strip and m between its parentheses |
| PyautoguiConverter.NegativeWaitEmitted | src/oagi/converters/pyautogui_action_converter.py:463-470 | as written, wait(-1) emits WAIT(-1.0) |
| PyautoguiConverter.CheckedWaitCommand | src/oagi/converters/pyautogui_action_converter.py:463-470 | corrected: a negative duration is a ValueError; otherwise the same command as the original |
| PyautoguiConverter.CheckedWaitSleeps | src/oagi/converters/pyautogui_action_converter.py:463-518 | corrected: every command emitted reads back as a sleep of the requested duration |
| PyautoguiConverter.NegativeWaitIsShellCommand | src/oagi/converters/pyautogui_action_converter.py:513-540 | as written, WAIT(-1.0) misses the pattern and runs as a shell command |
| PyautoguiConverter.PyautoguiCallIsCode | tests/test_oagi_action_converter.py:181-186 | every pyautogui call the converter emits runs as pyautogui code, unchanged |
| ConverterBase.DefaultConfigValues | src/oagi/converters/base.py:37-44 | the default configuration is valid: 1920x1080, drags of 0.5 s, scrolls of 2, waits of 1 s, key interval 0.1 s, session caps lock, lenient coordinates |
| ConverterBase.DialectScaler | src/oagi/converters/base.py:116-126 | the scaler from the dialect's space onto the sandbox is well formed |
| ConverterBase.ScaleCoordinate | src/oagi/converters/base.py:116-126 | each axis is scaled, rounded and clamped onto the sandbox, so the point always lies on it |
| ConverterBase.LastOrCenter | src/oagi/converters/base.py:162-170 | the last position when both coordinates are known, otherwise the sandbox centre |
| ConverterBase.CenterOnScreen | src/oagi/converters/base.py:170 | the centre fallback is a pixel of the sandbox |
| ConverterBase.LastOrCenterOnScreen | src/oagi/converters/base.py:162-170 | for a cursor on the sandbox the position returned is on the sandbox |
| ConverterBase.QuoteEscapedEach | src/oagi/converters/claude.py:122 | the two replacements are one character-by-character escape |
| ConverterBase.ReadEscapeEach | src/oagi/converters/claude.py:122-123 | the escaped text reads back as the text, unless it holds a line break |
| ConverterBase.QuoteEscapedRoundTrip | src/oagi/converters/claude.py:122-123 | Python reads the typed literal back as the very text for every text without a line break; one with a line break gives a command Python cannot read |
| ConverterBase.QuoteOnlyRoundTrip | src/oagi/converters/gemini.py:158 | escaping only quotes round-trips for text without backslash or line break |
| ConverterBase.NormalizedNonBlank | src/oagi/converters/claude.py:49 | blank pieces are dropped, never adding keys |
| ConverterBase.NormalizedKeyName | src/oagi/converters/claude.py:48-49 | a non-blank piece with no separator normalises to a key name |
| ConverterBase.NormalizedNonBlankNames | src/oagi/converters/claude.py:49 | every key of separator-free pieces is a key name |
| ConverterBase.SeparatedKeysAreNames | src/oagi/converters/claude.py:43-50 | every key split out is non-empty, normalised and free of both separators |
| ConverterBase.SingleNameOneKey | src/oagi/converters/claude.py:43-50 | a non-blank name without separators is exactly one key |
| ConverterBase.Advance | src/oagi/converters/base.py:206-221 | a failure is recorded, an empty result is skipped, commands are appended, and the converter state follows the conversion |
| ConverterBase.Call | src/oagi/converters/base.py:187-231 | an empty batch is empty; a RuntimeError exactly when nothing was converted and some action failed; otherwise all converted commands |
| ConverterBase.Accounting | src/oagi/converters/base.py:206-221 | each action is counted at most once as failed or skipped, and when nothing was converted every action was one of the two |
| ConverterBase.AllSkippedIsEmpty | src/oagi/converters/base.py:223-231 | a batch of no-op actions returns nothing rather than an error |
| ConverterBase.SkippingRun | src/oagi/converters/base.py:210-214 | actions that convert to nothing are all skipped |
| ConverterBase.ConvertedNeedsAction | src/oagi/converters/base.py:216 | a command was produced only if some action was neither skipped nor failed |
| ConverterBase.FailureThenConverted | src/oagi/converters/base.py:218-221 | a failing action does not stop the loop; the next action's commands are still appended |
| ConverterBase.ActionStringToStep | src/oagi/converters/base.py:260-292 | DONE/FAIL sleep 0; pyautogui code is the stripped text and names pyautogui; a shell command is the stripped text and does not |
| ConverterBase.StepDispatch | src/oagi/converters/base.py:269-292 | each of the four rules, in order, with the exact step; an empty string runs as an empty shell command |
| ConverterBase.DoneSleepsZero | src/oagi/converters/base.py:273-274 | DONE sleeps 0 seconds |
| ConverterBase.StepAgreesWithConvertor | src/oagi/converters/base.py:260-292 | the base and the pyautogui convertor dispatch every non-blank string without PynputController or _smart_paste alike |
| ConverterBase.BlankIsShellCommand | src/oagi/converters/base.py:269-292 | a blank string is a shell command here but a ValueError for the convertor |
| ConverterBase.SmartPasteIsShellCommand | src/oagi/converters/base.py:284-292 | _smart_paste code runs in a shell here |
| ConverterBase.SmartPasteIsConvertorCode | src/oagi/converters/pyautogui_action_converter.py:523-534 | the convertor runs _smart_paste code as pyautogui code |
| ConverterBase.CallIsCode | src/oagi/converters/base.py:284-289 | every `pyautogui.` call the converters emit runs as pyautogui code, unchanged |
| ConverterBase.CallFormOf | src/oagi/converters/base.py:284-289 | every call built has the pyautogui call shape |
| ConverterBase.ClickForm | src/oagi/converters/claude.py:77-95 | every click command has the call shape |
| ConverterBase.HotkeyCallForm | src/oagi/converters/claude.py:131-134 | every hotkey call has the call shape |
| ConverterBase.WaitIsSleep | src/oagi/converters/base.py:276-282 | WAIT of a non-negative positional duration is a sleep of that duration |
| ConverterBase.WaitOfNumber | src/oagi/converters/base.py:277-282 | WAIT(m) for a number of the pattern sleeps m seconds |
| ConverterBase.WholeWaitIsSleep | src/oagi/converters/base.py:277-282 | WAIT(n) for a whole number sleeps n seconds |
| ClaudeConverter.Scaled | src/oagi/converters/claude.py:35-41 | a point of the 1024x768 space always lands on the sandbox |
| ClaudeConverter.CoordsOrLast | src/oagi/converters/claude.py:52-61 | a given coordinate is scaled and remembered; otherwise the last position or the centre, with the cursor unchanged; the result stays on the sandbox |
| ClaudeConverter.MouseMove | src/oagi/converters/claude.py:70-75 | a missing coordinate is a ValueError that keeps the cursor; otherwise one move to the scaled point, which becomes the last position |
| ClaudeConverter.Click | src/oagi/converters/claude.py:77-95 | always exactly one click, at the scaled coordinate (then remembered) or at the last position or centre |
| ClaudeConverter.Drag | src/oagi/converters/claude.py:97-117 | a missing end is a ValueError that keeps the cursor; otherwise a move to the start and a drag to the end, and only the end is remembered |
| ClaudeConverter.TypeText | src/oagi/converters/claude.py:119-123 | succeeds exactly when text is given, typing it from a quoted literal with backslashes and quotes escaped |
| ClaudeConverter.Key | src/oagi/converters/claude.py:125-134 | succeeds exactly when the text names at least one key, with one hotkey call of the separated keys |
| ClaudeConverter.Scroll | src/oagi/converters/claude.py:136-158 | succeeds exactly when a coordinate is given and the direction is up or down; a move to the point and a scroll of the amount, up positive, down negative |
| ClaudeConverter.Convert | src/oagi/converters/claude.py:63-172 | a failure is a ValueError that keeps the cursor; the cursor only ever becomes the action's scaled coordinate and stays on the sandbox; screenshots, cursor queries and unknown types yield nothing |
| ClaudeConverter.Convertor | src/oagi/converters/claude.py:63 | the batch's conversion is total and is the single-action conversion |
| ClaudeConverter.ClickAgainInPlace | src/oagi/converters/claude.py:52-61 | a click without a coordinate after one with a coordinate clicks the same point again |
| ClaudeConverter.CommandsRun | src/oagi/converters/claude.py:63-172 | every command emitted but wait's runs as pyautogui code; wait's is a sleep of its non-negative duration |
| ClaudeConverter.CommandShape | src/oagi/converters/claude.py:63-158 | every command but wait's has the pyautogui call shape |
| ClaudeConverter.ObservationsAreSkipped | src/oagi/converters/claude.py:67-68 | a batch of screenshots and cursor queries converts to nothing without error |
| ClaudeConverter.ObservationSkipped | src/oagi/converters/claude.py:67-68 | a screenshot or cursor query converts to nothing and keeps the cursor |
| ClaudeConverter.SkippedRun | src/oagi/converters/base.py:210-214 | a run of observations skips every action |
| ClaudeConverter.ClaudeActionConverter.CoordsOrLastPoint | src/oagi/converters/claude.py:52-61 | the point and the new last position are those of the position function |
| ClaudeConverter.ClaudeActionConverter.ConvertSingleAction | src/oagi/converters/claude.py:63-172 | the commands and the new last position are those of the conversion function |
| ClaudeConverter.ClaudeActionConverter.Call | src/oagi/converters/base.py:187-231 | the loop's result and final position are those of the base batch function over this conversion |
| GeminiConverter.Scaled | src/oagi/converters/gemini.py:35-41 | a point of the 0-1000 space always lands on the sandbox |
| GeminiConverter.PointAction | src/oagi/converters/gemini.py:57-69 | a missing point is a ValueError that keeps the cursor; otherwise the command at the scaled point, which becomes the last position |
| GeminiConverter.TypeAtCommands | src/oagi/converters/gemini.py:71-94 | click, then select-all and delete when clearing, then type, then enter when asked, in that order |
| GeminiConverter.TypeTextAt | src/oagi/converters/gemini.py:71-94 | succeeds exactly when the point and the text are given, with two to five commands, and the point becomes the last position |
| GeminiConverter.ScrollDocument | src/oagi/converters/gemini.py:96-108 | down, up, left and right press pagedown, pageup, left and right; any other direction is a ValueError |
| GeminiConverter.ScrollAmount | src/oagi/converters/gemini.py:116-121 | with a magnitude the amount is at least 1 and magnitude // 100 from 200 on |
| GeminiConverter.ScrollAt | src/oagi/converters/gemini.py:110-134 | succeeds exactly when a point is given: a move and a scroll up by the amount, or down for any other direction |
| GeminiConverter.Address | src/oagi/converters/gemini.py:156-157 | the address always starts with http:// or https://, and one that already does is kept unchanged |
| GeminiConverter.Navigate | src/oagi/converters/gemini.py:152-164 | succeeds exactly when a url is given: focus the address bar, select it, type the address, press enter |
| GeminiConverter.KeyCombination | src/oagi/converters/gemini.py:166-173 | succeeds exactly when the keys name at least one key, with one hotkey call |
| GeminiConverter.DragAndDrop | src/oagi/converters/gemini.py:175-194 | succeeds exactly when both points are given: a move and a drag, and the destination becomes the last position |
| GeminiConverter.Fixed | src/oagi/converters/gemini.py:136-151 | search is three commands, back and forward are alt+left and alt+right, wait_5_seconds waits five seconds, and the browser opening and unknown types yield nothing |
| GeminiConverter.Convert | src/oagi/converters/gemini.py:49-195 | a failure is a ValueError that keeps the cursor; the cursor only ever becomes the action's scaled point or destination and stays on the sandbox |
| GeminiConverter.Convertor | src/oagi/converters/gemini.py:49 | the batch's conversion is total and is the single-action conversion |
| GeminiConverter.WaitFiveSleeps | src/oagi/converters/gemini.py:136-137 | the wait_5_seconds command sleeps five seconds |
| GeminiConverter.NavigateTypesAddress | src/oagi/converters/gemini.py:156-161 | the typed address reads back as the url with its https prefix, when the url has no backslash or line break |
| GeminiConverter.CommandsRun | src/oagi/converters/gemini.py:49-195 | every command emitted runs as pyautogui code, except the five-second wait, which is a sleep |
| GeminiConverter.PointedShape | src/oagi/converters/gemini.py:57-134 | the commands of the branches with a point have the call shape |
| GeminiConverter.FixedShape | src/oagi/converters/gemini.py:96-173 | the commands of the branches without a point, but the wait, have the call shape |
| GeminiConverter.GeminiActionConverter.TypeTextAtCommands | src/oagi/converters/gemini.py:71-94 | the appended commands and the new position are those of the type_text_at function |
| GeminiConverter.GeminiActionConverter.ConvertSingleAction | src/oagi/converters/gemini.py:49-195 | the commands and the new last position are those of the conversion function |
| GeminiConverter.GeminiActionConverter.Call | src/oagi/converters/base.py:187-231 | the loop's result and final position are those of the base batch function over this conversion |
| Qwen3Converter.Center | src/oagi/converters/qwen3.py:47-48 | a new converter's cursor is the sandbox centre, the same fallback as the base class's |
| Qwen3Converter.Scaled | src/oagi/converters/qwen3.py:51-57 | a point of the 0-999 space always lands on the sandbox |
| Qwen3Converter.Point | src/oagi/converters/qwen3.py:58-66 | the action's first two numbers, scaled onto the sandbox |
| Qwen3Converter.CoordsFromAction | src/oagi/converters/qwen3.py:58-66 | the action's point when it has one, else the cursor, and the result stays on the sandbox |
| Qwen3Converter.AtPoint | src/oagi/converters/qwen3.py:72-147 | a move, a click of the named kind, or a move and a scroll whose sign follows the pixels |
| Qwen3Converter.Drag | src/oagi/converters/qwen3.py:96-112 | succeeds exactly when an end point is given: a drag from the cursor to it, which becomes the cursor; otherwise a ValueError that keeps the cursor |
| Qwen3Converter.TypeText | src/oagi/converters/qwen3.py:114-118 | succeeds exactly when text is given, typed from an escaped quoted literal |
| Qwen3Converter.PressedKeys | src/oagi/converters/qwen3.py:124-127 | no more keys than names, and none of them empty |
| Qwen3Converter.Key | src/oagi/converters/qwen3.py:120-133 | succeeds exactly when some name normalises to a key, with one hotkey call |
| Qwen3Converter.Convert | src/oagi/converters/qwen3.py:68-166 | a failure is a ValueError that keeps the cursor; the cursor only ever becomes the action's scaled point and stays on the sandbox; terminate is DONE whatever its status; answer and unknown types yield nothing |
| Qwen3Converter.Convertor | src/oagi/converters/qwen3.py:68 | the batch's conversion is total and is the single-action conversion |
| Qwen3Converter.CenterOnSandbox | src/oagi/converters/qwen3.py:47-48 | the initial cursor lies on the sandbox |
| Qwen3Converter.NoPointActsAtCursor | src/oagi/converters/qwen3.py:58-66 | a pointing action without a point acts at the cursor and leaves it there |
| Qwen3Converter.DragsChain | src/oagi/converters/qwen3.py:96-112 | a drag starts where the previous drag ended |
| Qwen3Converter.HorizontalScrollIsVertical | src/oagi/converters/qwen3.py:135-147 | hscroll emits exactly what scroll emits |
| Qwen3Converter.NormalizeKeyEmpty | src/oagi/converters/qwen3.py:124-127 | a key normalises to nothing exactly when it is blank |
| Qwen3Converter.PressedKeysAreNonBlank | src/oagi/converters/qwen3.py:124-127 | the pressed keys are the blank-dropped, normalised names, as for Claude and Gemini |
| Qwen3Converter.CommandsRun | src/oagi/converters/qwen3.py:68-166 | every command runs as pyautogui code, except wait's sleep of its seconds and terminate's DONE, a sleep of no time |
| Qwen3Converter.CommandShape | src/oagi/converters/qwen3.py:72-147 | every command but wait's and terminate's has the call shape |
| Qwen3Converter.Qwen3ActionConverter.constructor | src/oagi/converters/qwen3.py:35-48 | a new converter's cursor is the sandbox centre |
| Qwen3Converter.Qwen3ActionConverter.GetCoordsFromAction | src/oagi/converters/qwen3.py:58-66 | the point returned is the position function's, and it becomes the cursor |
| Qwen3Converter.Qwen3ActionConverter.ConvertSingleAction | src/oagi/converters/qwen3.py:68-166 | the commands and the new cursor are those of the conversion function |
| Qwen3Converter.Qwen3ActionConverter.UpdateCursor | src/oagi/converters/qwen3.py:187-190 | the cursor becomes the given point |
| Qwen3Converter.Qwen3ActionConverter.GetCursor | src/oagi/converters/qwen3.py:192-194 | the cursor is returned |
| Qwen3Converter.Qwen3ActionConverter.Call | src/oagi/converters/base.py:187-231 | the loop's result and final cursor are those of the base batch function over this conversion |
| Qwen3Converter.CursorRoundTrip | src/oagi/converters/qwen3.py:187-194 | a cursor set by update_cursor is what get_cursor returns |
| OagiConverter.KeysCommands | src/oagi/converters/oagi.py:137-154 | the flag changes exactly for a lone caps lock in session mode, with no command; an empty combination is a ValueError; otherwise one hotkey call |
| OagiConverter.HotkeyCommands | src/oagi/converters/oagi.py:137-154 | an invalid key is a ValueError that keeps the flag; otherwise the key branch on the parsed keys |
| OagiConverter.WaitCommand | src/oagi/converters/oagi.py:168-176 | a WAIT of the seconds, or of the default for an empty argument, exactly when the argument is empty or a number; otherwise a ValueError |
| OagiConverter.Other | src/oagi/converters/oagi.py:101-190 | clicks at the parsed point, type through the caps transform, the wait branch, FINISH as DONE, call_user as nothing, and every kind without a branch a ValueError |
| OagiConverter.Single | src/oagi/converters/oagi.py:101-190 | the outer parentheses are stripped first, and only the hotkey branch can change the caps flag |
| OagiConverter.Convertor | src/oagi/converters/oagi.py:101 | the batch's conversion is total and is the single-action conversion |
| OagiConverter.FinishAdvance | src/oagi/converters/oagi.py:59-75 | an aborted run stays aborted; a second FINISH aborts; otherwise the repeated commands are appended or the failure recorded |
| OagiConverter.Outcome | src/oagi/converters/oagi.py:47-81 | an empty batch is empty; a second FINISH is the duplicate error; a RuntimeError exactly when nothing was converted and some action failed; otherwise the commands, possibly none |
| OagiConverter.RunStep | src/oagi/converters/oagi.py:59 | one more action is one more loop iteration |
| OagiConverter.AbortedStays | src/oagi/converters/oagi.py:62-66 | once the duplicate check fires, later actions change nothing |
| OagiConverter.FinishRemembered | src/oagi/converters/oagi.py:62-67 | after a FINISH the run has seen one or has aborted |
| OagiConverter.SecondFinishRejected | src/oagi/converters/oagi.py:62-66 | any batch with two FINISH actions is a ValueError |
| OagiConverter.FailIsUnknown | src/oagi/converters/oagi.py:186-190 | FAIL has no branch: a ValueError that keeps the flag |
| OagiConverter.FailThenFinish | src/oagi/converters/oagi.py:47-81 | FAIL then FINISH is not a duplicate: the batch is DONE, marked last |
| OagiConverter.FailedThenDone | src/oagi/converters/oagi.py:59-81 | a failing action then a FINISH leaves only DONE, marked last |
| OagiConverter.FinishIsDone | src/oagi/converters/oagi.py:178-180 | FINISH is DONE and keeps the flag |
| OagiConverter.SilentRun | src/oagi/converters/oagi.py:59-75 | non-FINISH actions that yield nothing leave the run empty |
| OagiConverter.CallUserOnlyIsEmpty | src/oagi/converters/oagi.py:77-81 | a batch of call_user actions is an empty list, not an error |
| OagiConverter.LoneCapsLockToggles | src/oagi/converters/oagi.py:146-151 | in session mode a lone caps lock yields nothing and flips the flag |
| OagiConverter.KeysAgreeWithConvertor | src/oagi/converters/oagi.py:137-154 | the hotkey branch agrees with the pyautogui convertor's on commands and flag |
| OagiConverter.PlainTypewrite | src/oagi/converters/oagi.py:156-159 | plain text is typed between single quotes and reads back as the text |
| OagiConverter.CommandsRun | src/oagi/converters/oagi.py:101-190 | every command runs as pyautogui code, except WAIT and FINISH's DONE, which sleeps no time |
| OagiConverter.CommandShape | src/oagi/converters/oagi.py:112-166 | every command but WAIT's and DONE has the call shape |
| OagiConverter.OagiActionConverter.ConvertSingleAction | src/oagi/converters/oagi.py:101-190 | the commands and the new caps flag are those of the single-action conversion |
| OagiConverter.OagiActionConverter.ConvertAction | src/oagi/converters/oagi.py:83-99 | the single conversion is done once and repeated count times, only the last command marked last |
| OagiConverter.OagiActionConverter.Call | src/oagi/converters/oagi.py:47-81 | the loop's result and caps flag are those of the batch function |
| PyautoguiHandler.Denormalize | src/oagi/handler/pyautogui_action_handler.py:84-90 | the screen point lies strictly inside the target screen, one pixel in from every edge, so the fail-safe corners are never reached |
| PyautoguiHandler.PointOf | src/oagi/handler/pyautogui_action_handler.py:92-97 | succeeds exactly when the argument is a point, with its screen point; otherwise "Invalid coordinates format" with the argument |
| PyautoguiHandler.DragOf | src/oagi/handler/pyautogui_action_handler.py:99-106 | succeeds exactly when the argument holds two points; otherwise "Invalid drag coordinates format" with the argument |
| PyautoguiHandler.ScrollOf | src/oagi/handler/pyautogui_action_handler.py:108-114 | succeeds exactly when the argument is a point and a direction; otherwise "Invalid scroll format" with the argument |
| PyautoguiHandler.ClickEvents | src/oagi/handler/pyautogui_action_handler.py:128-163 | every click is a move, a pause of click_pre_delay, then the press of its kind; on macOS double and triple clicks are explicit multi-clicks at the point |
| PyautoguiHandler.HotkeyStep | src/oagi/handler/pyautogui_action_handler.py:171-185 | a lone caps lock in session mode only flips the flag; any other key list, or caps lock in system mode, is pressed with the flag unchanged |
| PyautoguiHandler.TypedText | src/oagi/handler/pyautogui_action_handler.py:187-191 | the typed text is as long as the unquoted argument |
| PyautoguiHandler.PointerStep | src/oagi/handler/pyautogui_action_handler.py:137-209 | clicks, drags and scrolls act at the parsed point or raise a ValueError, and never change the flag |
| PyautoguiHandler.PlainStep | src/oagi/handler/pyautogui_action_handler.py:171-224 | hotkeys go through the hotkey branch, type types the transformed text, FINISH and FAIL turn caps lock off, wait sleeps wait_duration, and the kinds without a branch make no device call |
| PyautoguiHandler.Single | src/oagi/handler/pyautogui_action_handler.py:133-224 | the outer parentheses are stripped first; only ValueErrors are raised, before any device call; only hotkeys and terminal actions change the flag |
| PyautoguiHandler.Executor | src/oagi/handler/pyautogui_action_handler.py:133 | the execution function is total |
| PyautoguiHandler.Executes | src/oagi/handler/pyautogui_action_handler.py:133 | the executor of a context executes an action as the single-action function does |
| PyautoguiHandler.Copies | src/oagi/handler/pyautogui_action_handler.py:226-231 | n copies are n times as long |
| PyautoguiHandler.RepeatsCopy | src/oagi/handler/pyautogui_action_handler.py:226-231 | an action that succeeds and keeps the flag makes the same device calls on every repetition |
| PyautoguiHandler.ClickRepeats | src/oagi/handler/pyautogui_action_handler.py:226-231 | a click with a valid point and count n is n times move, pause, click |
| PyautoguiHandler.CapsLockTwiceRestores | src/oagi/handler/pyautogui_action_handler.py:174-182 | in session mode a lone caps lock flips the flag, twice restores it, with no device call |
| PyautoguiHandler.TypeUnderCaps | src/oagi/handler/pyautogui_action_handler.py:187-199 | typing is upper-cased exactly while the session flag is on |
| PyautoguiHandler.TerminalResets | src/oagi/handler/pyautogui_action_handler.py:211-213 | FINISH and FAIL switch caps lock off and make no device call |
| PyautoguiHandler.ThroughStops | src/oagi/handler/pyautogui_action_handler.py:233-242 | once a run has stopped, later actions change nothing |
| PyautoguiHandler.ErrorStops | src/oagi/handler/pyautogui_action_handler.py:233-245 | the first failing action stops the batch, and no closing pause follows |
| PyautoguiHandler.StoppedStays | src/oagi/handler/pyautogui_action_handler.py:226-231 | a stopped run stays stopped under repetition |
| PyautoguiHandler.RepeatedStopped | src/oagi/handler/pyautogui_action_handler.py:226-231 | once a repetition fails, further repetitions change nothing |
| PyautoguiHandler.ThroughStep | src/oagi/handler/pyautogui_action_handler.py:235-242 | one more action is one more turn of the loop, repeated count times |
| PyautoguiHandler.FailingRepeats | src/oagi/handler/pyautogui_action_handler.py:226-231 | an action failing on its first execution stops there, whatever its count |
| PyautoguiHandler.InvalidPointRaises | src/oagi/handler/pyautogui_action_handler.py:92-97 | a click with no point raises "Invalid coordinates format" before any device call |
| PyautoguiHandler.PyautoguiActionHandler.Ctx | src/oagi/handler/pyautogui_action_handler.py:43-62 | the context carries the handler's scaler and configuration |
| PyautoguiHandler.PyautoguiActionHandler.constructor | src/oagi/handler/pyautogui_action_handler.py:43-62 | a new handler covers the whole screen at the origin, caps lock off, no device call yet |
| PyautoguiHandler.PyautoguiActionHandler.ExecuteSingleAction | src/oagi/handler/pyautogui_action_handler.py:133-224 | the device calls appended and the new flag are those of the single-action function |
| PyautoguiHandler.PyautoguiActionHandler.ExecutePointer | src/oagi/handler/pyautogui_action_handler.py:137-209 | the pointer branches append their device calls, or raise before any |
| PyautoguiHandler.PyautoguiActionHandler.ExecutePlain | src/oagi/handler/pyautogui_action_handler.py:171-224 | the branches that cannot fail append their device calls and set the flag |
| PyautoguiHandler.PyautoguiActionHandler.ExecuteAction | src/oagi/handler/pyautogui_action_handler.py:226-231 | the action is executed count times, stopping at the first error |
| PyautoguiHandler.PyautoguiActionHandler.Call | src/oagi/handler/pyautogui_action_handler.py:233-245 | the trace, flag and error are those of the batch function |
| PyautoguiHandler.PyautoguiActionHandler.Reset | src/oagi/handler/pyautogui_action_handler.py:64-70 | caps lock is off afterwards |
| PyautoguiHandler.PyautoguiActionHandler.SetTargetScreen | src/oagi/handler/pyautogui_action_handler.py:72-82 | the stored size and origin and the scaler's become the screen's, and no device call is made |
| YdotoolHandler.Trunc | src/oagi/handler/ydotool_action_handler.py:169-170 | the quotient by 1000 truncated toward zero: the remainder has the sign of the dividend and is less than 1000 in size |
| YdotoolHandler.Axis | src/oagi/handler/ydotool_action_handler.py:169-186 | on a screen at least two pixels wide the coordinate lies one pixel in from both edges; inside those bounds it is the scaled value shifted by the origin |
| YdotoolHandler.PointOf | src/oagi/handler/ydotool_action_handler.py:204-209 | succeeds exactly when the argument is a point, with its screen point; otherwise "Invalid coordinates format" with the argument |
| YdotoolHandler.DragOf | src/oagi/handler/ydotool_action_handler.py:211-218 | succeeds exactly when the argument holds two points; otherwise "Invalid drag coordinates format" with the argument |
| YdotoolHandler.ScrollOf | src/oagi/handler/ydotool_action_handler.py:220-226 | succeeds exactly when the argument is a point and a direction; otherwise "Invalid scroll format" with the argument |
| YdotoolHandler.NormalizeKey | src/oagi/handler/ydotool_action_handler.py:190-202 | the result is in canonical form (stripped, lower case) |
| YdotoolHandler.CapsLockName | src/oagi/handler/ydotool_action_handler.py:195 | "capslock" is its own canonical form |
| YdotoolHandler.PageName | src/oagi/handler/ydotool_action_handler.py:196-197 | "pgup" and "pgdn" are their own canonical forms |
| YdotoolHandler.CanonicalStable | src/oagi/handler/ydotool_action_handler.py:192 | stripping and lower-casing is idempotent |
| YdotoolHandler.NormalizeKeyIdempotent | src/oagi/handler/ydotool_action_handler.py:190-202 | normalizing a key twice is normalizing it once |
| YdotoolHandler.NormalizedNamesHaveCodes | src/oagi/handler/ydotool_action_handler.py:194-198 | the three names normalization produces all have key codes (58, 104, 109) |
| YdotoolHandler.CapsLockVariations | src/oagi/handler/ydotool_action_handler.py:195 | every spelling of caps lock, in any case and with any surrounding space, reaches the caps-lock code |
| YdotoolHandler.PageVariations | src/oagi/handler/ydotool_action_handler.py:196-197 | every spelling of page up and page down reaches that key's code |
| YdotoolHandler.CapsLockSpellingNeedsNormalizing | src/oagi/handler/ydotool_action_handler.py:195 | "caps_lock" has no code of its own and gets one only through normalization |
| YdotoolHandler.ParseHotkey | src/oagi/handler/ydotool_action_handler.py:228-234 | one key per '+'-separated piece of the argument without its parentheses, never none |
| YdotoolHandler.ParsedKeysNormal | src/oagi/handler/ydotool_action_handler.py:233 | every parsed key is already normalized |
| YdotoolHandler.Clicks | src/oagi/handler/ydotool_action_handler.py:109-123 | a double click clicks twice per repetition, a triple click three times, the others once |
| YdotoolHandler.PointerStep | src/oagi/handler/ydotool_action_handler.py:96-123 | the pointer branches never change the caps-lock flag |
| YdotoolHandler.HotkeyStep | src/oagi/handler/ydotool_action_handler.py:125-137 | any key list other than a lone caps lock is pressed count times with the flag unchanged |
| YdotoolHandler.TypedText | src/oagi/handler/ydotool_action_handler.py:139-143 | the typed text is no longer than the argument |
| YdotoolHandler.PlainStep | src/oagi/handler/ydotool_action_handler.py:125-159 | only hotkeys and text run commands, and only hotkeys and FINISH change the flag |
| YdotoolHandler.Single | src/oagi/handler/ydotool_action_handler.py:87-161 | only the branches that read a point can raise |
| YdotoolHandler.Executes | src/oagi/handler/ydotool_action_handler.py:87 | the executor of a context executes an action as the single-action function does |
| YdotoolHandler.Corners | src/oagi/handler/ydotool_action_handler.py:174-182 | the screen's edges are moved one pixel inwards |
| YdotoolHandler.AxisMonotone | src/oagi/handler/ydotool_action_handler.py:169-186 | a larger grid value never lands further left or up |
| YdotoolHandler.ScrollIgnoresCount | src/oagi/handler/ydotool_action_handler.py:100-107 | a scroll moves the wheel once, whatever the count |
| YdotoolHandler.MultiClickRepeats | src/oagi/handler/ydotool_action_handler.py:113-119 | double and triple clicks carry twice or three times the count in the repeat flag |
| YdotoolHandler.SingleClickOnce | src/oagi/handler/ydotool_action_handler.py:121-123 | a single click with the default count clicks the left button with no repeat flag |
| YdotoolHandler.SessionCapsLockFlips | src/oagi/handler/ydotool_action_handler.py:132-134 | in session mode a lone caps lock only flips the flag |
| YdotoolHandler.HotkeySingle | src/oagi/handler/ydotool_action_handler.py:125-126 | a hotkey action runs the hotkey branch on its parsed keys |
| YdotoolHandler.LoneCapsLockStep | src/oagi/handler/ydotool_action_handler.py:128-134 | a lone caps lock is pressed once in system mode and flips the flag in session mode |
| YdotoolHandler.CapsLockTwiceRestores | src/oagi/handler/ydotool_action_handler.py:132-134 | in session mode caps lock twice restores the flag and runs nothing |
| YdotoolHandler.ExecutorFlips | src/oagi/handler/ydotool_action_handler.py:132-134 | a session-mode executor flips the flag on a lone caps lock from either flag |
| YdotoolHandler.FlipTwice | src/oagi/handler/ydotool_action_handler.py:238-240 | two silent flips by the same action leave the run as it was |
| YdotoolHandler.CapsLockCommand | src/oagi/handler/ydotool_action_handler.py:131 | pressing caps lock alone presses and releases code 58 |
| YdotoolHandler.SystemCapsLockPresses | src/oagi/handler/ydotool_action_handler.py:129-131 | in system mode caps lock is pressed once whatever the count, and the flag stays |
| YdotoolHandler.TypeUnderCaps | src/oagi/handler/ydotool_action_handler.py:139-144 | while session caps lock is on the text is typed upper-cased |
| YdotoolHandler.TypedWord | src/oagi/handler/ydotool_action_handler.py:144 | the typed text is the third word of the command line |
| YdotoolHandler.TypeSingle | src/oagi/handler/ydotool_action_handler.py:139-144 | a TYPE action types its stripped argument and keeps the flag |
| YdotoolHandler.PlainSingle | src/oagi/handler/ydotool_action_handler.py:92-95 | an action that needs no point runs the plain branch on its stripped argument |
| YdotoolHandler.TypeStep | src/oagi/handler/ydotool_action_handler.py:139-144 | the plain branch of a TYPE action is one type command |
| YdotoolHandler.FinishResetsFailKeeps | src/oagi/handler/ydotool_action_handler.py:146-159 | FINISH turns caps lock off; FAIL, having no branch, keeps it |
| YdotoolHandler.InvalidPointRaises | src/oagi/handler/ydotool_action_handler.py:204-209 | a click on a malformed point raises "Invalid coordinates format" and runs nothing |
| YdotoolHandler.ErrorStops | src/oagi/handler/ydotool_action_handler.py:236-243 | once an action has raised, later actions run nothing |
| YdotoolHandler.ThroughStep | src/oagi/handler/ydotool_action_handler.py:238-240 | one more action is one more turn of the loop |
| YdotoolHandler.YdotoolActionHandler.constructor | src/oagi/handler/ydotool_action_handler.py:44-68 | a handler for the found screen size at the origin, with the configured socket, pause and mode, caps lock off, nothing run |
| YdotoolHandler.YdotoolActionHandler.ExecuteAction | src/oagi/handler/ydotool_action_handler.py:87-161 | never reports FINISH; the commands and flag become those of one more action of the run |
| YdotoolHandler.YdotoolActionHandler.ExecutePointer | src/oagi/handler/ydotool_action_handler.py:96-123 | the pointer branches run their commands, or raise before any |
| YdotoolHandler.YdotoolActionHandler.ExecutePlain | src/oagi/handler/ydotool_action_handler.py:125-159 | the branches that cannot raise run their commands and set the flag |
| YdotoolHandler.YdotoolActionHandler.Call | src/oagi/handler/ydotool_action_handler.py:236-243 | the commands, flag and error are those of the run function over the batch |
| YdotoolHandler.YdotoolActionHandler.Reset | src/oagi/handler/ydotool_action_handler.py:70-76 | caps lock is off afterwards |
| YdotoolHandler.YdotoolActionHandler.SetTargetScreen | src/oagi/handler/ydotool_action_handler.py:78-85 | later points land on the given screen: its size and origin are stored |
| Wayland.GetScreenSize | src/oagi/handler/wayland_support.py:33-43 | no size exactly when there is no monitor; the first primary monitor's size when there is one, else the first monitor's |
| Wayland.Command | src/oagi/handler/wayland_support.py:136-138 | the program and its arguments, followed by "--repeat" and the count exactly when the count is above one |
| Wayland.Codes | src/oagi/handler/wayland_support.py:213-215 | at most one code per key |
| Wayland.Presses | src/oagi/handler/wayland_support.py:216 | one press per code, in the codes' order |
| Wayland.Releases | src/oagi/handler/wayland_support.py:216-218 | one release per code, last code first |
| Wayland.KeyArgs | src/oagi/handler/wayland_support.py:216-218 | every code pressed in order, then released in the reverse order, so the releases mirror the presses |
| Wayland.Repeat | src/oagi/handler/wayland_support.py:160-164 | n copies are n times as long |
| Wayland.PauseAsWritten | src/oagi/handler/wayland_support.py:134-135 | as written the pause is either nothing or one whole second |
| Wayland.Pause | src/oagi/handler/wayland_support.py:134-135 | the intended pause keeps at least action_pause seconds between runs and never sleeps longer than needed |
| Wayland.PauseAsWrittenOversleeps | src/oagi/handler/wayland_support.py:134-135 | as written a run 0.1 s after the last sleeps 1 s instead of 0.4 s, and one 100 s after still sleeps 1 s instead of nothing |
| Wayland.SocketEnv | src/oagi/handler/wayland_support.py:143-144 | the socket variable is set exactly when a socket address is given, to that address, and nothing else is set |
| Wayland.SocketAddressLost | src/oagi/handler/wayland_support.py:143-144 | as written a custom socket address never reaches ydotool; with the intended name it does |
| Wayland.Ydotool.Environment | src/oagi/handler/wayland_support.py:142-144 | a given socket address is passed to every run |
| Wayland.Ydotool.constructor | src/oagi/handler/wayland_support.py:73-82 | the default pause is half a second, with nothing run yet |
| Wayland.Ydotool.RunYdotool | src/oagi/handler/wayland_support.py:130-153 | one more command line, the one the command function builds |
| Wayland.Ydotool.MouseMove | src/oagi/handler/wayland_support.py:166-175 | one absolute move to the point |
| Wayland.Ydotool.Drag | src/oagi/handler/wayland_support.py:155-164 | count times a move, a press, a move and a release |
| Wayland.Ydotool.Scroll | src/oagi/handler/wayland_support.py:177-190 | one wheel move by the given clicks |
| Wayland.Ydotool.Click | src/oagi/handler/wayland_support.py:192-201 | a move, then the right or left button clicked count times |
| Wayland.Ydotool.Type | src/oagi/handler/wayland_support.py:203-207 | one type command with the text |
| Wayland.Ydotool.Hotkey | src/oagi/handler/wayland_support.py:209-219 | one key command pressing the known keys in order and releasing them in reverse |
| Wayland.RepeatFlag | src/oagi/handler/wayland_support.py:136-137 | the repeat flag reads back as the count asked for |
| Wayland.NoRepeatFlag | src/oagi/handler/wayland_support.py:136-138 | with a count of one or less nothing is added |
| Wayland.CodesAllKnown | src/oagi/handler/wayland_support.py:213-215 | when every key has a code the codes are those of the keys, one for one and in order |
| Wayland.CodesNoneKnown | src/oagi/handler/wayland_support.py:213-215 | when no key has a code nothing is pressed |
| Wayland.UnknownKeyDropped | src/oagi/handler/wayland_support.py:213-215 | a key with no code adds nothing |
| Wayland.CodesAppend | src/oagi/handler/wayland_support.py:213-215 | the codes of two runs of keys are concatenated |
| Wayland.CopyHotkey | src/oagi/handler/wayland_support.py:209-219 | ctrl+c presses control, presses c, releases c, releases control |
| Memory.ParseStatus | src/oagi/agent/planner/memory.py:77-78 | a status parsed from a string has that string as its value |
| Memory.ParseStatusValue | src/oagi/agent/planner/memory.py:77-78 | every status is parsed back from its own value |
| Memory.Resolve | src/oagi/agent/planner/memory.py:77-78 | a status is taken as given; a string resolves exactly when it is the value of a status, and otherwise raises ValueError |
| Memory.CountStatus | src/oagi/agent/planner/memory.py:151-152 | a status is counted at most once per todo |
| Memory.CountsCoverTodos | src/oagi/agent/planner/memory.py:145-153 | the four status counts add up to the number of todos |
| Memory.LargestKey | src/oagi/agent/planner/memory.py:218 | the result is one of the keys and no key is larger |
| Memory.DeliverableLines | src/oagi/agent/planner/memory.py:184-187 | one numbered line per deliverable, in order, with its achieved mark |
| Memory.TodoLines | src/oagi/agent/planner/memory.py:193-195 | one numbered line per todo, in order, with its status value |
| Memory.DeliverablesBody | src/oagi/agent/planner/memory.py:184-189 | the numbered deliverables, or a single note when there are none |
| Memory.OverviewLines | src/oagi/agent/planner/memory.py:177-198 | a fixed heading and the instruction or its fallback, the deliverables and todos sections, and a closing blank line |
| Memory.SummaryLines | src/oagi/agent/planner/memory.py:211-222 | the task summary block, followed by a last-todo block exactly when one is given |
| Memory.HistoryLines | src/oagi/agent/planner/memory.py:237-243 | five lines per record, six when its summary is non-empty |
| Memory.HistoriesSnoc | src/oagi/agent/planner/memory.py:236-243 | the records' lines are built one record after another |
| Memory.MarkedTodoLines | src/oagi/agent/planner/memory.py:300-302 | one line per todo, in order, each with the current-todo marker decided by its index |
| Memory.CurrentSection | src/oagi/agent/planner/memory.py:286-296 | the current-todo section is present exactly when the index is in range |
| Memory.ExternalLines | src/oagi/agent/planner/memory.py:313-331 | the task, the deliverables, and a progress block exactly when the summary is non-empty |
| Memory.OnlyCurrentMarked | src/oagi/agent/planner/memory.py:300-302 | exactly the current todo's line carries the arrow |
| Memory.OutOfRangeOmitsCurrent | src/oagi/agent/planner/memory.py:286-299 | for an index out of range the context starts with the list of all todos |
| Memory.InRangeShowsCurrent | src/oagi/agent/planner/memory.py:286-289 | for an index in range the context starts with that todo's status and description |
| Memory.HistoriesLength | src/oagi/agent/planner/memory.py:232-246 | the report has five or six lines per record |
| Memory.UpdateKeepsOthers | src/oagi/agent/planner/memory.py:79 | updating one todo's status leaves every other todo, the length and its description unchanged |
| Memory.PlannerMemory.constructor | src/oagi/agent/planner/memory.py:11-18 | the memory starts empty |
| Memory.PlannerMemory.SetTask | src/oagi/agent/planner/memory.py:20-50 | the description is replaced; todos and deliverables become the given ones, strings wrapped as pending or unachieved records; no deliverables when none are given |
| Memory.PlannerMemory.GetCurrentTodo | src/oagi/agent/planner/memory.py:52-61 | the first pending or in-progress todo and its index, or none and -1 exactly when no todo is active |
| Memory.PlannerMemory.UpdateTodo | src/oagi/agent/planner/memory.py:63-81 | for an index in range the status is set and a non-empty summary stored; an unknown status string raises; an index out of range changes nothing |
| Memory.PlannerMemory.AddHistory | src/oagi/agent/planner/memory.py:83-107 | one record with the todo's description for an index in range, nothing otherwise |
| Memory.PlannerMemory.GetTodoStatusSummary | src/oagi/agent/planner/memory.py:139-153 | one count per status, each the number of todos with that status |
| Memory.PlannerMemory.AppendTodo | src/oagi/agent/planner/memory.py:155-161 | one pending todo is appended |
| Memory.PlannerMemory.AppendDeliverable | src/oagi/agent/planner/memory.py:163-169 | one unachieved deliverable is appended |
| Memory.PlannerMemory.DeliverableBodyLines | src/oagi/agent/planner/memory.py:184-189 | the lines are the deliverables section's body |
| Memory.PlannerMemory.FormatTaskOverview | src/oagi/agent/planner/memory.py:171-200 | the overview lines joined by newlines |
| Memory.PlannerMemory.FormatExecutionSummary | src/oagi/agent/planner/memory.py:202-224 | the task summary, followed by the summary stored under the largest index when asked for and present |
| Memory.PlannerMemory.FormatTodoHistories | src/oagi/agent/planner/memory.py:226-248 | the histories report joined by newlines |
| Memory.PlannerMemory.FormatFullContext | src/oagi/agent/planner/memory.py:250-271 | the overview, the summary without the last todo, then the histories when asked for |
| Memory.PlannerMemory.MarkedLines | src/oagi/agent/planner/memory.py:300-302 | the todo list with the current one marked |
| Memory.PlannerMemory.FormatInternalContext | src/oagi/agent/planner/memory.py:273-305 | the current-todo section for an index in range, then every todo with the current one marked |
| Memory.PlannerMemory.FormatExternalContext | src/oagi/agent/planner/memory.py:307-333 | the external-context lines joined by newlines |
| LlmPlanner.ParsePlannerOutput | src/oagi/agent/planner/llm_planner.py:454-480 | undecodable text becomes the instruction with the fallback reasoning and no subtodos; a decoded non-object raises AttributeError; an object gives "subtask", else "instruction", else "" as the instruction |
| LlmPlanner.ParseReflectionOutput | src/oagi/agent/planner/llm_planner.py:482-519 | undecodable text continues the current instruction; a decoded non-object raises AttributeError; success exactly when "success" is "yes", a pivot exactly when the stripped "subtask_instruction" is non-blank, and continuing never comes with a pivot or success |
| LlmPlanner.ParseSummary | src/oagi/agent/planner/llm_planner.py:209-214 | the "task_summary" value of a decoded object, else the response text; a decoded non-object raises AttributeError |
| LlmPlanner.LastN | src/oagi/agent/planner/llm_planner.py:144 | the last n elements, or all of them when there are fewer |
| LlmPlanner.WindowSteps | src/oagi/agent/planner/llm_planner.py:136-145 | at most ten steps, numbered from 1, carrying the latest actions' type, target and reasoning |
| LlmPlanner.WindowEndsWithLatest | src/oagi/agent/planner/llm_planner.py:144 | the window ends with the latest action and, with more than ten, starts ten back |
| LlmPlanner.TodoEntryLines | src/oagi/agent/planner/llm_planner.py:234-237 | one line per todo entry, in order |
| LlmPlanner.InternalFromDict | src/oagi/agent/planner/llm_planner.py:216-239 | a heading, a working-on line when a current todo is given, and the todo list when todos are given |
| LlmPlanner.DeliverableEntryLines | src/oagi/agent/planner/llm_planner.py:259-261 | one line per deliverable entry, in order, with its achieved mark |
| LlmPlanner.ExternalFromDict | src/oagi/agent/planner/llm_planner.py:241-263 | nothing exactly when the task description is missing or empty; otherwise a heading and the description first |
| LlmPlanner.NoteLines | src/oagi/agent/planner/llm_planner.py:279-284 | one line per history entry, and a second when it carries a summary |
| LlmPlanner.SummaryCount | src/oagi/agent/planner/llm_planner.py:283 | at most one summary per entry |
| LlmPlanner.NotesLength | src/oagi/agent/planner/llm_planner.py:277-286 | one line per entry and one more per entry with a summary |
| LlmPlanner.TodoListing | src/oagi/agent/planner/llm_planner.py:234-237 | the todo entries' lines |
| LlmPlanner.DeliverableListing | src/oagi/agent/planner/llm_planner.py:259-261 | the deliverable entries' lines |
| LlmPlanner.FormatInternalContextFromDict | src/oagi/agent/planner/llm_planner.py:216-239 | the internal-context parts joined by newlines |
| LlmPlanner.FormatExternalContextFromDict | src/oagi/agent/planner/llm_planner.py:241-263 | none exactly when the parts are none, else the parts joined by newlines |
| LlmPlanner.FormatExecutionNotes | src/oagi/agent/planner/llm_planner.py:265-286 | the execution notes, empty without history |

## Left out

- Floats are exact decimals, with these consequences:
  - `Decimals.ParseFloat` reads an optional sign, digits and an optional fraction, with surrounding white space. Python's `float()` also accepts exponents (`"1e3"`), `inf`, `nan` and underscores (`"1_0"`); those strings are not numbers here.
  - `Decimals.Repr` writes every value positionally. Python's `str()` switches to exponent form below 1e-4 and from 1e16 up (`str(1e-05) == "1e-05"`).
  - No negative zero, and no rounding to binary floating point.
- PyautoguiConverter.WaitCommand: `wait("1e3")`, `wait("inf")` and `wait("1_0")` are ValueErrors here, while the source emits a WAIT command for them.
- PyautoguiConverter.WaitRoundTrip: stated only for durations that `str()` writes positionally (`Decimals.Positional`). For example, `wait("0.00001")` emits "WAIT(1e-05)". That misses the WAIT pattern and runs as a shell command.
- ConverterBase.WaitIsSleep: limited to positional durations, for the same reason.
- Text.IsDigit is ASCII only. Python's `\d` and `int()` also accept other Unicode decimal digits: `parse_coords("١, ٢")` is (1, 2) in the source and None here.
- Text.IsWordChar is ASCII only. Python's `\w` is Unicode-wide: `parse_scroll("500, 300, upé")` reads the word "upé" and gives None in the source, while here the word stops at "up" and the result is (500, 300, "up").
- Text.ParseInt refuses underscores between digits and non-ASCII digits. Python's `int("1_0")` is 10, so `hotkey(ctrl, 1_0)` repeats ten times in the source and once here.
- ActionModel.ParseCoords: `\d` is the ASCII digit class of Text.IsDigit, so `ParseCoordsSpec` characterises the parser for ASCII digits only.
- ActionModel.ParseDragCoords: the same ASCII digit class; `ParseDragCoordsSpec` holds for it.
- ActionModel.ParseScroll: `\d` and `\w` are the ASCII classes of Text.IsDigit and Text.IsWordChar, so "500, 300, upé" gives (500, 300, "up") here where the source gives None; `ParseScrollSpec` holds for these classes.
- Exporters.Capitalize maps ASCII letters only. Python's `"ßx".capitalize()` is the longer "Ssx", so the length equality does not hold of the source for such text.
- Json.ReprChar escapes control characters and U+007F to U+00A0 only. Python's `repr` escapes every non-printable character, such as U+00AD as `\xad` and U+2028 as `\u2028`.
- Json: the decoded values hold no `Infinity` or `NaN`, which `json.loads` accepts. For such a scroll count the source's `int()` at src/oagi/utils/output_parser.py:301-302 raises an OverflowError or ValueError that nothing catches.
- Qwen3Converter.Wait always writes the duration through `str()` of a float ("WAIT(2.0)"). The source's action record does not coerce its fields, so an integer time of 2 is written "WAIT(2)". Both sleep two seconds.
- PyautoguiConverter.ValidConfig and Scaling.Scaler.Valid ask for screens of at least 3 pixels on each axis, which the fail-safe bounds need. The source accepts smaller screens.
- Text.Upper and Text.Lower map ASCII letters only. Python's case mapping is Unicode-wide: `"faıl".upper() == "FAIL"` makes that action a FAIL step in the source but not here.
- YdotoolHandler.TypedText: its `|t| <= |arg|` holds for the ASCII mapping only. Python upper-cases "straße" to the longer "STRASSE".
- PyautoguiHandler.TypedText: its length equality holds for the ASCII mapping only, for the same reason.
- Wayland.Ydotool.Environment uses the corrected socket variable, so the class models the intended program. The misspelled variable the source sets is modelled by `SocketEnvAsWritten` (see Findings).
- Wayland.Ydotool.RunYdotool omits the pause before each run and the `last_action_time` bookkeeping, which are wall-clock arithmetic. Both the written and the intended pause are modelled on their own by `PauseAsWritten` and `Pause`.
- Wayland.Ydotool.constructor omits the `shutil.which` check and `environ_check`. These probe the installed system and only log warnings.
- Other ydotool I/O is left out: the exit-status RuntimeError of `_run_ydotool`, `is_wayland_display_server` and `screenshot`.
- PyautoguiConverter.MakeTypeCommand: `make_type_command` lives in a module that is not part of this model. Its rule is written concretely (ASCII, no line break, at most 200 characters) and is fixed only at the four inputs of tests/test_oagi_action_converter.py:79-106. The control-character, tab and length-200 cases are chosen here.
- PyautoguiConverter.Typable: the same concretisation as `MakeTypeCommand`.
- The key normaliser and hotkey parser of `handler.utils` are not part of this model. The Claude, Gemini, Qwen3 and OAGI converters use the pyautogui convertor's `NormalizeKey` and `ParseHotkey` instead, which the source says is synced from it.
- PyautoguiConverter.Outcome: the RuntimeError for a batch with nothing converted omits the trailing `: {failed}` list. Rendering Python's `repr` of a list of tuples is not modelled.
- PyautoguiConverter.ParseHotkey: the invalid-keys message omits the "Valid keys include" suffix. The source lists the first 30 elements of a set, and set iteration order is unspecified.
- ClientBase: the HTTP transport, retries, logging and pydantic parsing of responses are not modelled. Environment variables are inputs.
- ServerModels: only the declared field constraints are modelled. Pydantic's type coercion and the unconstrained string fields are not.
- Exporters: `export_to_json` is left out. It is `json.dumps` of the events plus base64 images, both foreign formatting.
- PyautoguiHandler and YdotoolHandler: the device is an event trace. Timing, `print`, the macOS and Windows typing back-ends, and the async wrapper are left out.
- LlmPlanner: these are left out:
  - the worker calls (`initial_plan`, `reflect`, `summarize`) and the screenshot upload;
  - the client lifecycle (`_ensure_client`, `close`, the async context manager);
  - the three prompt builders (src/oagi/agent/planner/llm_planner.py:288-453), which only interpolate the context into fixed text.
  - the pydantic validation of `PlannerOutput`: its fields are kept as raw JSON values.
- Memory: `get_context` (src/oagi/agent/planner/memory.py:109-137) is left out. It returns the memory's fields as a dictionary, and those fields are the class's state.
- Memory: todos and deliverables are value records. In the source `set_task` stores the caller's own objects and `update_todo` changes them in place, so the caller sees the change. That aliasing is not modelled.

## Findings

| source | as written | input that shows it | evidently intended | confidence | as-written member | corrected member |
|---|---|---|---|---|---|---|
| src/oagi/handler/wayland_support.py:144 | the socket address is stored under "YDOOTOOL_SOCKET" (also read at :96) | any non-empty `socket_address` | set "YDOTOOL_SOCKET", the variable ydotool reads | not executed | Wayland.SocketEnvAsWritten, Wayland.SocketAddressLost | Wayland.SocketEnv |
| src/oagi/handler/wayland_support.py:134-135 | `interval := (...) / 1000 < self.action_pause` binds the comparison, so `interval` is a bool and `sleep(True)` sleeps one second; the elapsed seconds are also divided by 1000 | a run 0.1 s after the previous one sleeps 1 s instead of 0.4 s; one 100 s after still sleeps 1 s | sleep what is left of `action_pause` since the last run | not executed | Wayland.PauseAsWritten, Wayland.PauseAsWrittenOversleeps | Wayland.Pause |
| src/oagi/converters/pyautogui_action_converter.py:463-470 | a negative duration is emitted as `WAIT(-1.0)`, which fails the WAIT pattern at :514 and runs as a shell command | `wait(-1)` | reject negative durations, so that every emitted WAIT reads back as a sleep | not executed | PyautoguiConverter.NegativeWaitEmitted, PyautoguiConverter.NegativeWaitIsShellCommand | PyautoguiConverter.CheckedWaitCommand, PyautoguiConverter.CheckedWaitSleeps |

The batch convertor keeps the wait branch as written, so that its contracts describe the program. The corrected branch is proved on its own.
