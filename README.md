# CozoDB Memory dashboard: a Dafny model of its decision logic

The CozoDB Memory terminal dashboard (`src/tui.py`) is a Textual application
that drives the `cozo-memory` command-line tool. Its own logic is small and
deterministic:

- locating the CLI script at start-up;
- mapping each button to a handler (`on_button_pressed`);
- validating form fields and building the CLI's argument list (`handle_*`);
- assembling the command line `node <cli> <args> [-f json]` and classifying
  what the process did into an `{"error": ...}` or `{"success": True, "data": ...}`
  dict (`_run_cli_command`);
- rendering that dict as the result text, with a 5000-character cut
  (`_update_result`).

This project models those pieces and proves what they promise.

Modules, leaves first:

- `Wrappers` (`wrappers.dfy`): `Option`, `Result`.
- `JsonValue` (`json_value.dfy`): decoded JSON values, dict lookup and Python
  truthiness. `json.loads`, `json.dumps(indent=2)` and `str()` are taken as
  given functions, bundled in a `Library` value.
- `Locator` (`locator.dfy`): `_find_cli_path`. It is a loop (`FindCliPath`)
  proved equal to the first-match function `Locate`, with lemmas for the
  first-match and fallback rules. Whether a path exists is a parameter.
- `Invoker` (`invoker.dfy`): the command line (`Command`) and the outcome
  classifier (`Classify`). The process outcome (timeout, raised exception,
  exit code with both streams) is a datatype given as input.
- `Rendering` (`rendering.dfy`): the dict renderer `Render`, exactly as
  `_update_result` tests its keys. Also `Display`, the typed view the
  handlers use, proved to agree with `Render`, and `Truncate`.
- `Commands` (`commands.dfy`): one argument builder per form handler, the
  export arguments and the fixed commands of the quick actions.
- `Navigation` (`navigation.dfy`):
  - the sidebar, menus and forms, reduced to the button ids and input ids
    each one mounts;
  - the dispatch table `Dispatch`;
  - lemmas that every button on screen is handled, and that every handler
    reads only inputs its own form mounts.
- `Session` (`session.dfy`): the `Dashboard` class. It holds `cliPath`, found
  at construction, and `panel`, what the result area shows. `Press` performs
  one button press to completion and returns the command line it ran, if any.
  `Edit` stands for typing into a mounted input.

The process runner is a parameter `run: seq<string> -> Outcome` of `Press`.
It gives the outcome of the one command a press runs.

Facts about the code that the model keeps:

- The validation messages are the handlers' own strings, such as "Name and
  type are required", "Search query is required" and "At least one field
  must be provided".
- The truncation marker is `"\n... (truncated)"`, with a leading newline.
- Only `handle_export` replaces a successful reply, with
  `{"message": "Exported to <path>"}`. A successful import shows
  `{"output": <stdout>}`, like any other command run without JSON output.
- The markdown export's default path is `export.markdown`: the default path
  uses the format name, not a file extension.
- When no candidate script exists, the command line starts
  `node cozo-memory` (`Invoker.FallbackRunsThroughNode`). Node then looks for
  a script file named `cozo-memory`; it does not run the installed
  `cozo-memory` command.

## Model

| member | source | states |
|---|---|---|
| Locator.Candidates | src/tui.py:86-89 | two candidates: `/dist/cli.js` under the install root, then under the working directory |
| Locator.Locate | src/tui.py:91-96 | the first-match search: its result is always an existing candidate or the fallback name "cozo-memory" |
| Locator.FindCliPath | src/tui.py:83-96 | the search loop returns exactly `Locate(candidates, present)` |
| Locator.LocateFirstMatch | src/tui.py:91-93 | when some candidate exists, the result is an existing candidate and every earlier candidate does not exist |
| Locator.LocateFallback | src/tui.py:95-96 | when no candidate exists, the result is "cozo-memory" |
| Invoker.Command | src/tui.py:129-132 | the command line is "node", the CLI path, the arguments unchanged, and `-f json` as its last two items only in JSON mode |
| Invoker.Excerpt | src/tui.py:152 | the quoted output is a prefix of stdout of length min(200, len) |
| Invoker.Classify | src/tui.py:126-160 | timeout gives "Command timed out"; another exception gives its message; a non-zero exit gives stderr or "Command failed"; success holds exactly for exit 0 that decodes in JSON mode, or any exit 0 otherwise; the data is the decoded value, or `{"output": stdout}` without JSON; a decode error gives "Failed to parse JSON: <e>\nOutput: " + the first 200 characters of stdout, and any other exception from the decoder gives its message |
| Invoker.ParseFailureMessage | src/tui.py:150-152 | an undecodable exit-0 output gives exactly "Failed to parse JSON: <e>\nOutput: " followed by the first 200 characters of stdout (all of it when shorter) |
| Invoker.FallbackRunsThroughNode | src/tui.py:96-129 | when no candidate exists, the located path is the fallback, so the command line starts `node cozo-memory` |
| Invoker.RawOutputIgnoresDecoder | src/tui.py:153-155 | without JSON output the decoder is never consulted |
| Invoker.AsDict | src/tui.py:142-160 | a failure is a dict with key "error"; a success has no "error", "success" set to True and "data" set to the payload |
| JsonValue.Truthy | src/tui.py:171 | the truth test on `data["success"]`: false exactly for None, False, 0, "", [] and {} |
| JsonValue.Text | src/tui.py:170 | an f-string placeholder: a string shows as itself, any other value through `str()` |
| JsonValue.Lookup | src/tui.py:168-171 | a key is found exactly when some member has it, with that member's value |
| Rendering.Truncate | src/tui.py:174-176 | a payload up to 5000 characters is unchanged; a longer one keeps its first 5000 characters followed by the marker; the result is never longer than 5016 |
| Rendering.TruncateIdempotent | src/tui.py:174-176 | truncating a truncated payload changes nothing |
| Rendering.Render | src/tui.py:162-181 | an "error" key wins over everything; otherwise a truthy "success" shows SUCCESS and the truncated dump of "data" (a KeyError when "data" is missing); any other dict is dumped whole |
| Rendering.Display | src/tui.py:168-177 | on the dashboard's own replies the dict renderer never fails; it gives "ERROR:\n" + message, or "SUCCESS:\n" + truncated dump |
| Rendering.DisplayHeading | src/tui.py:168-177 | the text starts with "ERROR:\n" exactly for failures; a success starts with "SUCCESS:\n" and its length is bounded |
| Commands.CreateEntityArgs | src/tui.py:405-419 | refused with "Name and type are required" exactly when name or type is empty; otherwise `entity create -n name -t type`, then `-m metadata` exactly when metadata is non-empty |
| Commands.SearchArgs | src/tui.py:422-453 | refused with "Search query is required" exactly when the query is empty; otherwise `search query|agentic -q query`, then `-l limit` exactly when the limit is non-empty |
| Commands.ImportArgs | src/tui.py:455-466 | refused with "File path is required" exactly when the path is empty; otherwise `import file -i path -f format`, where the format defaults to "cozo" and is never empty |
| Commands.ExploreArgs | src/tui.py:500-514 | refused with "Start entity ID is required" exactly when the start id is empty; otherwise `graph explore -s id`, then `-h hops` exactly when hops is non-empty |
| Commands.ReflectArgs | src/tui.py:535-545 | never refused; `system reflect`, then `-i id` exactly when the id is non-empty |
| Commands.ProfileUpdateArgs | src/tui.py:632-651 | refused with "At least one field must be provided" exactly when all three fields are empty; otherwise `profile update` followed by the optional pairs in order |
| Commands.ProfileUpdateFlags | src/tui.py:638-645 | the flags read from a profile update are -n, -t, -m in that order, each present exactly when its field is non-empty |
| Commands.ProfileUpdateValue | src/tui.py:638-645 | each non-empty field is the value of its own flag, even when it looks like a flag; an empty field has no flag |
| Commands.AddPreferenceArgs | src/tui.py:654-669 | refused with "Preference text is required" exactly when the text is empty; otherwise `profile add-preference -t text`, then `-m metadata` exactly when it is non-empty |
| Commands.ExportArgs | src/tui.py:547-557 | the output path is the input or `export.<format>` when it is empty, so it is never empty; `export <format> -o path`, plus the three `--include-*` flags only for JSON |
| Commands.FixedArgs | src/tui.py:192-673 | each quick action (lines 192, 472, 478, 484, 519, 597, 673) runs a two-item command in its group: health and metrics under `system`, show and reset under `profile`, the rest under `graph` |
| Commands.FixedArgsInjective | src/tui.py:192-673 | the quick actions (health, metrics, pagerank, communities, summarize, profile show/reset) run pairwise different commands |
| Navigation.Dispatch | src/tui.py:327-403 | the sidebar ids only open menus or forms, or list entities; every form submission comes from a `btn-submit-` id |
| Navigation.Sidebar | src/tui.py:106-113 | the eight sidebar button ids, in mount order |
| Navigation.MenuButtons | src/tui.py:204-324 | the button ids each menu mounts, in mount order: three for the system menu, four for the graph and profile menus |
| Navigation.FormButtons | src/tui.py:224-629 | the button ids each form mounts, in mount order: two for search, three for export, one for every other form |
| Navigation.FormInputs | src/tui.py:219-628 | the input ids each form mounts, in mount order: one to three per form |
| Navigation.RequestInputs | src/tui.py:407-657 | the input ids each submission handler reads: exactly the inputs its form mounts |
| Navigation.ScreenIdsDistinct | src/tui.py:106-324 | no two buttons on one screen (the sidebar plus a menu or form) share an id |
| Navigation.FormInputIdsDistinct | src/tui.py:219-628 | no two inputs of one form share an id |
| Navigation.FormInputIdsPrefixed | src/tui.py:219-628 | every input id a form mounts starts with `input-` |
| Navigation.FormButtonKinds | src/tui.py:224-629 | every button a form mounts has a `btn-submit-` or `btn-export-` id |
| Navigation.Blank | src/tui.py:217-629 | a freshly opened form (any of the eight) holds exactly its own inputs, all empty |
| Navigation.DispatchCoversShownButtons | src/tui.py:327-403 | the dispatch table handles a button id exactly when some screen shows it; every other id falls through to `Ignore`, the no-op default |
| Navigation.MenuButtonsHandled | src/tui.py:349-365 | menu buttons only run fixed commands or open forms |
| Navigation.FormButtonsReadForm | src/tui.py:367-403 | a form's buttons submit or export, and the handler reads only inputs that form mounts |
| Navigation.FormButtonSubmitsItsForm | src/tui.py:367-403 | a form's buttons submit a request whose form is that form, or export from the export form |
| Navigation.ExportButtonsExport | src/tui.py:394-399 | the export form's three buttons export |
| Navigation.SubmitButtonsSubmit | src/tui.py:367-403 | every other form's buttons submit a request of that same form |
| Navigation.SubmitReadsItsForm | src/tui.py:405-657 | every button on screen reaches a handler; a submit or export button is only on screen inside a form that mounts every input its handler reads |
| Session.Prepare | src/tui.py:405-666 | a submission is refused exactly when a field it cannot do without is empty (none for reflect; all three for profile update); otherwise its arguments start with its command group and subcommand |
| Session.PrepareReadsOnlyItsInputs | src/tui.py:405-411 | a submission depends only on the inputs its handler reads |
| Session.EmptySubmission | src/tui.py:411-413 | submitting a form with every field empty is refused for every form except the reflection, which runs `system reflect` |
| Session.ExportReply | src/tui.py:560-563 | an export error passes through unchanged; a success becomes exactly the dict `{"message": "Exported to <path>"}` |
| Session.ExportHidesOutput | src/tui.py:559-563 | a successful export shows the same text whatever the CLI printed |
| Session.Count | src/tui.py:304-306 | `health_data.get(key, 0)` as shown: "0" when the key is missing, otherwise that key's value formatted |
| Session.HealthPanel | src/tui.py:291-310 | an error shows "Error: <message>"; a dict payload shows the entity, observation and relationship counts (0 when missing) and the CLI hint; a non-dict payload makes the handler raise |
| Session.Dashboard.constructor | src/tui.py:79-81 | the CLI path is the first existing candidate or the fallback; the result area shows its placeholder (`Welcome`) |
| Session.Dashboard.Edit | src/tui.py:217-225 | typing into an input of the mounted form changes that input's value and nothing else |
| Session.Dashboard.Press | src/tui.py:327-403 | per handler (every shown id reaches one, so the `Ignore` case is not reached here): menus and forms open with blank inputs and run nothing; a refused submission runs nothing and shows "ERROR:\n" + message; a submission reads only inputs its form mounts; otherwise exactly one command runs and its classified, rendered reply is shown, with JSON output off for import and export |

## Left out

- The Textual widget tree, CSS, key bindings and `compose`. The result area is reduced to `Panel`; sidebar and menu layout are reduced to button ids.
- The `welcome-text` status line and the help screen (`action_show_help`). These are presentation only.
- `action_refresh`. It calls the async health action without awaiting it, so the coroutine is never run: the health command does not run and only the status line changes, which is not modelled.
- Process spawning, the 30-second timeout and stream capture. Their result is the `Outcome` input.
- The internals of `json.loads`, `json.dumps` and `str()`. They are the uninterpreted functions of `Library`.
- `Path.exists` is the `present` parameter. `Path(__file__).parent.parent` is the `installRoot` parameter, and path normalisation by `str(Path)` is not modelled.
- async/await scheduling. Each press runs as one sequential step.
- What Textual does after a handler raises. `Fault` only records that the result area was emptied.
- A missing widget (`NoMatches`) is not modelled as an error. `Navigation.SubmitReadsItsForm` proves that every input a handler reads is mounted.
- `JsonValue.Json`: numbers are integers. Floating point is not modelled.
- `JsonValue.Lookup`: returns the first member with a key. Python dicts have unique keys, so this only differs for hand-built duplicates.
- Session.HealthPanel: the entity-list lines are shown with markup on, unlike the result text; an error message holding `[...]` is read as markup there, while the model treats every line as literal text.
- Python strings holding lone surrogates have no counterpart in Dafny strings, so they are not modelled.
