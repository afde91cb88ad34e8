# dot-vscode: half-page terminal scroll, workspace-settings commands, terminal ids

This project models three pieces of the editor customisation in the
dot-vscode repository:

- The half-page terminal scroll. The editor's terminal cannot jump to a given
  line. So `terminalScrollHalfPage` in `jdanbrown/src/init.ts` issues one
  single-line scroll command per step, `floor(rows / 2)` times. The steps come
  from a small `range(n)` helper. `scrollHalfPage` in
  `jdanbrown/src/extension.ts` is a second copy of the same command, with its
  own `range`.
- Three commands in `jdanbrown/src/init.ts` that patch the workspace settings:
  - the gutter toggle (`editor.glyphMargin`, `editor.folding`);
  - the Jupyter cell-marker fix;
  - Pylance disable and undisable (`python.languageServer`).
- The `userInitTs.terminal.new` command in the root `init.ts`. It opens a tmux
  terminal tagged with the id `<workspace basename>-<short hash>-<timestamp>`.

Modules:

- `Wrappers`: `Option` and `Result`.
- `JsRuntime`: the JavaScript built-ins the code relies on, with their
  properties proved. These are `Number.isInteger`, `Math.floor`,
  `Array(n).keys()`, and `String.prototype.split` with its inverse, join.
- `VscodeHost`: the slice of the editor API in use.
  - A `Workbench` class holds the active terminal, the trace of executed
    commands and the count of console warnings.
  - A `WorkspaceConfiguration` class holds the workspace settings, which the
    commands write, over the inherited settings, which they only read.
- `JdanbrownInit`, `JdanbrownExtension` and `UserInit`: the three source files.

Each command that changes state is a module-level method. It takes the
`Workbench` or `WorkspaceConfiguration` object as a parameter and changes only
that object's trace, warning count or workspace settings. Each method is
proved against a pure function of the old state: the effect of a scroll, or
the new workspace settings. The properties are lemmas about those functions.

Edge cases the model keeps as the code has them:

- The scroll does not guard against huge row counts. `range(n)` builds
  `Array(n)`, which throws a `RangeError` for a length above 2^32 - 1. So a
  terminal reporting 2^33 rows or more makes the command throw before it
  scrolls.
  - The model keeps this path: `Range` returns `InvalidArrayLength`, and the
    scroll ends `Thrown`.
  - `Math.floor` already yields an integer, so the `NotInteger` path of
    `range` is never reached from the scroll.
- `userInitTs.terminal.new` reads `vscode.workspace.workspaceFile.path` with
  no guard. `workspaceFile` is `undefined` when no workspace file is open
  (a single-folder or empty window), and then that read fails with a
  TypeError. `NewTerminal` returns `Err(WorkspaceFileUndefined)` there, rather
  than demanding an open workspace file of its caller.
- The gutter toggle negates the value `config.get` returns, and that value
  comes from every settings layer. The model therefore separates the workspace
  layer, which is written, from the inherited layers, which are only read. A
  setting missing from every layer reads as `undefined`, which is falsy, so
  the toggle sets it to `true`.

## Model

| member | source | states |
|---|---|---|
| JsRuntime.IsInteger | jdanbrown/src/init.ts:371 | `Number.isInteger(x)`: defined as x equalling its floor; `JdanbrownInit.Range` states its error path in terms of it |
| JsRuntime.Floor | jdanbrown/src/init.ts:107 | `Math.floor(x)` is an integer r with r <= x < r + 1 |
| JsRuntime.ArrayKeys | jdanbrown/src/init.ts:374 | `Array(n).keys()` yields n keys, the i-th being i |
| JsRuntime.Split | init.ts:49 | `split` yields at least one part; exactly one, the whole string, iff the separator does not occur |
| JsRuntime.SplitPartsAvoidSeparator | init.ts:49 | no part produced by `split` contains the separator |
| JsRuntime.JoinSplit | init.ts:49 | joining the parts of `split` with the same separator gives back the string |
| JsRuntime.SplitJoin | init.ts:49 | splitting a join of separator-free parts gives back the parts |
| JsRuntime.SplitAtSeparator | init.ts:49 | splitting `a + sep + b` gives the parts of `a` followed by the parts of `b` |
| JsRuntime.SplitFirstPart | init.ts:49 | the first part (`split(...)[0]`) is a separator-free prefix ending at the first separator or at the end |
| JsRuntime.SplitLastPart | init.ts:49 | the last part (`split(...).pop()`) is a separator-free suffix starting after the last separator or at the start |
| VscodeHost.RepeatedContents | jdanbrown/src/init.ts:107-112 | a trace of n executions of one command has n entries, each that command |
| VscodeHost.Workbench.ExecuteCommand | jdanbrown/src/init.ts:108-111 | executing a command appends it to the trace and changes nothing else |
| VscodeHost.Workbench.Warn | jdanbrown/src/init.ts:92-96 | `console.warn` adds one warning and changes nothing else |
| VscodeHost.Effective | jdanbrown/src/init.ts:196-197 | `config.get(key)` is the workspace value if set, else the inherited value, else undefined |
| VscodeHost.Truthy | jdanbrown/src/init.ts:196-197 | the truthiness the `!` negates: defined as JavaScript truthiness of a setting's value, with `undefined`, `null`, `false`, `0` and `""` falsy; characterised through `JdanbrownInit.GutterToggleFlips` |
| VscodeHost.WorkspaceConfiguration.Get | jdanbrown/src/init.ts:196-197 | `config.get(key)`: defined as `Effective` of the object's workspace and inherited settings |
| VscodeHost.WorkspaceConfiguration.Update | jdanbrown/src/init.ts:196-197 | an update at the workspace target sets the key, or removes it when the value is undefined |
| JdanbrownInit.Range | jdanbrown/src/init.ts:370-375 | throws "not an integer" iff n is not an integer; throws a length error iff n is an integer below 0 or above 2^32 - 1; otherwise yields the n numbers 0..n-1 in order |
| JdanbrownInit.Rows | jdanbrown/src/init.ts:96 | defined as the reported row count, or 255 without dimensions; characterised by `ScrollWarnsIffNoDimensions` |
| JdanbrownInit.HalfPage | jdanbrown/src/init.ts:107 | defined as `Math.floor(rows / 2)`; characterised by `HalfPageIsHalfTheRows` |
| JdanbrownInit.ScrollCommand | jdanbrown/src/init.ts:108-111 | defined as the direction's lookup in the command table; characterised by `ScrollFollowsDirection` |
| JdanbrownInit.TerminalScrollHalfPageEffect | jdanbrown/src/init.ts:75-114 | defined as the commands, warnings and completion of one invocation; characterised by `ScrollWithoutTerminalIsNoop`, `ScrollWarnsIffNoDimensions`, `ScrollStepCount` and `ScrollFollowsDirection` |
| JdanbrownInit.TerminalScrollHalfPage | jdanbrown/src/init.ts:75-114 | the command appends exactly the scroll effect's commands to the trace, adds its warnings, and ends as the effect says |
| JdanbrownInit.HalfPageIsHalfTheRows | jdanbrown/src/init.ts:107 | `Math.floor(rows / 2)` is the integer half of the row count |
| JdanbrownInit.HalfPageExamples | jdanbrown/src/init.ts:107 | 255 rows give 127 steps, 10 give 5, 1 and 0 give none |
| JdanbrownInit.ScrollWithoutTerminalIsNoop | jdanbrown/src/init.ts:78-82 | without an active terminal: no command, no warning, normal end |
| JdanbrownInit.ScrollWarnsIffNoDimensions | jdanbrown/src/init.ts:90-96 | a warning is logged iff the terminal reports no dimensions; the row count is the reported one when there are dimensions, and 255 otherwise |
| JdanbrownInit.ScrollStepCount | jdanbrown/src/init.ts:96-112 | with a terminal, the command ends normally iff rows/2 fits an array length; then it issues exactly rows/2 commands, otherwise none |
| JdanbrownInit.ScrollFollowsDirection | jdanbrown/src/init.ts:107-112 | every command issued scrolls in the requested direction; never the other |
| JdanbrownInit.ScrollExamples | jdanbrown/src/init.ts:75-114 | 10 rows up issue five scroll-ups; no dimensions issue 127 scroll-downs and one warning; 0 rows issue nothing |
| JdanbrownInit.GutterToggled | jdanbrown/src/init.ts:190-198 | both gutter settings become booleans negating their current truthiness; every other workspace setting is kept |
| JdanbrownInit.ToggleGutter | jdanbrown/src/init.ts:190-198 | the command leaves the workspace settings as `GutterToggled` of the old ones |
| JdanbrownInit.GutterToggleFlips | jdanbrown/src/init.ts:196-197 | after a toggle the value the editor sees for each gutter setting has the opposite truthiness; a setting unset everywhere becomes true |
| JdanbrownInit.GutterToggleTwice | jdanbrown/src/init.ts:196-197 | toggling twice restores the workspace settings iff both gutter settings were already booleans in them |
| JdanbrownInit.CellMarkerFixed | jdanbrown/src/init.ts:220-223 | the cell marker becomes `# %%` in the workspace settings; every other setting is kept |
| JdanbrownInit.FixCellMarker | jdanbrown/src/init.ts:220-223 | the command leaves the workspace settings as `CellMarkerFixed` of the old ones |
| JdanbrownInit.CellMarkerFixIdempotent | jdanbrown/src/init.ts:222 | the fix is idempotent, and afterwards the editor sees `# %%` whatever is inherited |
| JdanbrownInit.PylanceDisabled | jdanbrown/src/init.ts:234-237 | the language server becomes `None` in the workspace settings; every other setting is kept |
| JdanbrownInit.PylanceUndisabled | jdanbrown/src/init.ts:230-233 | the language server is removed from the workspace settings; every other setting is kept |
| JdanbrownInit.DisablePylance | jdanbrown/src/init.ts:234-237 | the command leaves the workspace settings as `PylanceDisabled` of the old ones |
| JdanbrownInit.UndisablePylance | jdanbrown/src/init.ts:230-233 | the command leaves the workspace settings as `PylanceUndisabled` of the old ones |
| JdanbrownInit.PylanceCommandsLastWins | jdanbrown/src/init.ts:230-237 | each Pylance command is idempotent; the later of the two wins; after undisable the editor falls back to the inherited language server |
| JdanbrownExtension.Range | jdanbrown/src/extension.ts:61-66 | throws "not an integer" iff n is not an integer; yields 0..n-1 iff n is an integer between 0 and 2^32 - 1 |
| JdanbrownExtension.ScrollCommand | jdanbrown/src/extension.ts:43-46 | defined as the direction's lookup in the command table; characterised by `ScrollHalfPageMatchesInit` |
| JdanbrownExtension.ScrollHalfPageEffect | jdanbrown/src/extension.ts:10-49 | defined as the commands, warnings and completion of one invocation of the second copy; characterised by `ScrollHalfPageMatchesInit` |
| JdanbrownExtension.ScrollHalfPage | jdanbrown/src/extension.ts:10-49 | the command appends exactly the scroll effect's commands to the trace, adds its warnings, and ends as the effect says |
| JdanbrownExtension.RangeMatchesInit | jdanbrown/src/extension.ts:61-66 | the two copies of `range` agree on every input |
| JdanbrownExtension.ScrollHalfPageMatchesInit | jdanbrown/src/extension.ts:10-49 | the two copies of the scroll have the same effect on every terminal and direction |
| JdanbrownExtension.ScrollHalfPageTwice | jdanbrown/src/extension.ts:51-54 | two scrolls in a row append both effects in order; the second is unaffected by the first, even when the first threw |
| UserInit.WorkspaceBasename | init.ts:49 | defined as `split('/').pop().split('.')[0]`; characterised by `WorkspaceBasenameShape`, `BasenameAtIsUnique` and `WorkspaceBasenameEdgeCases` |
| UserInit.WorkspaceBasenameShape | init.ts:49 | the basename starts where the last path segment starts and runs to that segment's first `.` or its end; it holds no `/` and no `.` |
| UserInit.BasenameAtIsUnique | init.ts:49 | that shape determines the basename and its position uniquely |
| UserInit.WorkspaceBasenameEdgeCases | init.ts:49 | the basename is the whole last segment when it has no `.`; it is empty for a path ending in `/` or a last segment starting with `.` |
| UserInit.NowStr | init.ts:50 | removing `-`, `:` and `.` leaves a string no longer than the input and free of all three |
| UserInit.NowStrOfConcat | init.ts:50 | the removal works piecewise over concatenation |
| UserInit.NowStrKeepsOtherCharacters | init.ts:50 | a string without the three characters is left unchanged |
| UserInit.NowStrIdempotent | init.ts:50 | removing the punctuation twice is the same as once |
| UserInit.NowStrOfIsoTimestamp | init.ts:50 | a `YYYY-MM-DDTHH:mm:ss.sssZ` timestamp keeps its fields, `T` and `Z` in order and loses exactly its separators |
| UserInit.Sha1HexShort | init.ts:81-83 | the short hash is a prefix of the digest of length n, clamped to between 0 and the digest length |
| UserInit.NewTerminal | init.ts:47-58 | fails iff the workspace has no file; otherwise opens the tmux shell with one variable, `VSCODE_TERM_UID`, bound to basename-hash-timestamp |
| UserInit.TermUid | init.ts:51 | defined as basename, short hash and timestamp joined by `-`; characterised by `TermUidParts` and `SameWorkspaceIdsCollideIffTimestampsDo` |
| UserInit.TermUidParts | init.ts:51 | when the digest has no `-`, splitting the id at `-` gives back the timestamp, the short hash and (joined) the basename |
| UserInit.SameWorkspaceIdsCollideIffTimestampsDo | init.ts:51 | two ids from the same workspace are equal iff their punctuation-stripped timestamps are equal |

## Left out

- Command registration and activation (`registerCommand`, `context.subscriptions`, `activate`) are left out. They are plumbing, and the commands are modelled as the functions they register.
- Other commands in the two init files are outside this model. These are the quit-and-relaunch command (`jdanbrown.quitAndRestart`, which spawns a shell process), the lost-focus workaround, the rerun command, quick-open magit and the image viewer in `jdanbrown/src/init.ts`.
- The SHA-256 digest (`sha1Hex`, a call into CryptoJS) is a function parameter. Only its `substr` truncation and the fact that hex has no `-` are used.
- `new Date().toISOString()` is an input string: the clock is not modelled. Its layout is captured by `UserInit.IsoTimestamp`.
- UserInit.NowStrOfIsoTimestamp: states the removal for every timestamp of the `toISOString` layout, not for one literal date.
- JavaScript numbers are modelled as reals: NaN, the infinities and floating-point rounding are left out. Terminal rows are whole numbers, so halving them and flooring is exact.
- `terminal.dimensions` is modelled as present or absent, as the editor reports it. Rows are natural numbers.
- `executeCommand` and `config.update` return promises. The model takes each call as taking effect at once and in program order. Scroll commands are fire-and-forget, and the settings updates are awaited in sequence.
- `config.get` reads a snapshot taken by `getConfiguration()`. Each command reads a key before it writes that key, so the snapshot and the live value agree at every read the model makes.
- Settings writes are assumed to succeed. Every `config.update` at the workspace target is awaited, and the editor may reject it: no workspace is open, the settings file has errors, or the key is not registered because its extension is missing. The command would then throw, and the gutter toggle would stop before its second write. `WorkspaceConfiguration.Update` has no failure path, so the model does not capture a rejected write or a half-applied toggle.
- The editor's own merging of object-valued settings across layers is left out. A workspace value replaces the inherited one whole.
- The scroll commands' visual effect on the terminal (how far the buffer moves) is left out. The model records the trace of commands issued.
- Console messages are counted, not formatted.
