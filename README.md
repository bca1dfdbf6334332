# Terminal command actions, modelled in Dafny

This project models the command actions of the integrated terminal panel
(`terminalActions.ts`) and the drop-down that lists the terminal instances. The actions
are kill, copy selection, create, focus, focus next and previous, paste, run selected
text, switch, scroll down and up, and toggle the panel. The drop-down stays in step with
the terminal service.

The terminal service is a class, `TerminalService.Service`. It holds:

- the ordered list of instance handles;
- the optional active instance;
- each instance's title;
- a log of every effect call an action makes on the service or on an instance: create,
  set-active, show or toggle the panel, dispose, copy, paste, send text, scroll. Queries
  are not recorded: `getActiveInstance`, `terminalInstances.length` and the editor reads.

Each action is a method over that object. Its postcondition lists the exact effect calls it
makes, in order. It also says what happens to the instance list, the active instance and
the titles of the instances that were there before. The service's methods have only the
contracts the actions rely on:

- `createInstance` appends a fresh handle and returns it;
- `setActiveInstance(h)` makes `h` active;
- `getActiveInstance` returns the active handle or none;
- `dispose` removes the handle from the list.

The service itself is not part of this model. Its rules are left open, as nondeterministic
choices in the method bodies that only keep the invariant `Valid()`: where the pointer goes
on next and previous, which instance becomes active after a disposal, and whether
`createInstance` makes the new instance active. No proof depends on any of these rules.

Two parts are pure functions:

- `parseInt(item.split(':')[0], 10) - 1` is `TerminalActions.SwitchIndex`. It is built on
  a model of JavaScript's `parseInt`: leading white space, an optional sign, then the
  longest run of ASCII digits; no digits gives NaN, here `None`.
- The choice of text for "run selected text" is `TerminalActions.TextToRun`.

The model takes two things about the service as assumptions, because its code is not part
of this model:

- each selector label is `"<position + 1>: <title>"`;
- `activeTerminalInstanceIndex` is the position of the active instance, or -1 when there is
  none.

Under these assumptions, option `k` of the drop-down switches to the instance at position
`k`, and after the resulting event the drop-down selects option `k`
(`Scenarios.ChooseOption`).

Files: `wrappers.dfy` (Option), `js_parse_int.dfy` (parseInt and decimal rendering),
`seqs.dfy` (removal and lookup in the instance list), `terminal_service.dfy` (the service),
`terminal_actions.dfy` (the actions, the label parse, the text choice and the selector),
`scenarios.dfy` (properties of action sequences).

## Model

| member | source | states |
|---|---|---|
| TerminalActions.ToggleTerminal | src/vs/workbench/parts/terminal/electron-browser/terminalActions.ts:27-29 | the only call is one panel toggle; no instance state changes |
| TerminalActions.KillTerminal | src/vs/workbench/parts/terminal/electron-browser/terminalActions.ts:46-55 | with no active instance no effect call is made and nothing changes; otherwise exactly the active instance is disposed, it leaves the list, the list shrinks by one, and `showPanel(true)` follows if and only if instances remain |
| TerminalActions.CopyTerminalSelection | src/vs/workbench/parts/terminal/electron-browser/terminalActions.ts:74-80 | one copy call on the active instance, and no call when there is none; list and active instance unchanged |
| TerminalActions.CreateNewTerminal | src/vs/workbench/parts/terminal/electron-browser/terminalActions.ts:97-100 | exactly one fresh handle is appended and becomes active, the older instances keep their titles, and the calls are create, set-active, `showPanel(true)` in that order |
| TerminalActions.FocusTerminal | src/vs/workbench/parts/terminal/electron-browser/terminalActions.ts:115-122 | afterwards an instance is active; an existing active instance is reused with nothing created and list, titles and active instance unchanged; otherwise exactly one instance is created and made active and the older instances keep their titles; `showPanel(true)` is always called last |
| TerminalActions.FocusNextTerminal | src/vs/workbench/parts/terminal/electron-browser/terminalActions.ts:137-140 | the calls are next, then `showPanel(true)`; the list is unchanged |
| TerminalActions.FocusPreviousTerminal | src/vs/workbench/parts/terminal/electron-browser/terminalActions.ts:155-158 | the calls are previous, then `showPanel(true)`; the list is unchanged |
| TerminalActions.PasteIntoTerminal | src/vs/workbench/parts/terminal/electron-browser/terminalActions.ts:172-179 | pastes into the active instance with list, titles and active instance unchanged, or creates exactly one instance and pastes into it while the older instances keep their titles; neither set-active nor `showPanel` is called |
| TerminalActions.RunSelectedTextInTerminal | src/vs/workbench/parts/terminal/electron-browser/terminalActions.ts:195-211 | sends `TextToRun` with `addNewLine = true` to the active instance with list, titles and active instance unchanged, or creates exactly one instance and sends to it while the older instances keep their titles; no set-active, no `showPanel` |
| TerminalActions.TextToRun | src/vs/workbench/parts/terminal/electron-browser/terminalActions.ts:203-208 | an empty selection gives the editor's whole value exactly as `getValue()` returns it, with no line-ending conversion; otherwise the range text with LF when `os.EOL` is `"\n"` and with CRLF otherwise |
| TerminalActions.EndOfLineFor | src/vs/workbench/parts/terminal/electron-browser/terminalActions.ts:206 | LF exactly when the host line ending is `"\n"`, else CRLF |
| TerminalActions.SwitchTerminalInstance | src/vs/workbench/parts/terminal/electron-browser/terminalActions.ts:227-231 | calls `setActiveInstanceByIndex(SwitchIndex(item))` then `showPanel(true)`; an index inside the list makes that instance active; the list is unchanged |
| TerminalActions.SwitchIndex | src/vs/workbench/parts/terminal/electron-browser/terminalActions.ts:228 | no index exactly when `parseInt` of the text before the first colon is NaN; otherwise the index is that number minus one |
| JsParseInt.ParseInt | src/vs/workbench/parts/terminal/electron-browser/terminalActions.ts:228 | NaN exactly when, after the white space and an optional sign, no digit follows; a negative result needs a leading `-` |
| TerminalActions.BeforeFirstColon | src/vs/workbench/parts/terminal/electron-browser/terminalActions.ts:228 | the result is the prefix of the label that holds no colon and ends at the first colon or at the end |
| TerminalActions.BeforeFirstColonOfJoin | src/vs/workbench/parts/terminal/electron-browser/terminalActions.ts:228 | for a colon-free `p`, the text before the first colon of `p + ":" + q` is `p`, whatever `q` holds |
| TerminalActions.SwitchIndexOfLabel | src/vs/workbench/parts/terminal/electron-browser/terminalActions.ts:228 | the label `"<n + 1>: <title>"` gives index `n` for every title, later colons included |
| TerminalActions.SwitchIndexOfBash | src/vs/workbench/parts/terminal/electron-browser/terminalActions.ts:228 | `"2: bash"` gives index 1 |
| TerminalActions.LabelsSwitchToTheirPosition | src/vs/workbench/parts/terminal/electron-browser/terminalActions.ts:228-229 | every label in the service's label list parses to its own position |
| JsParseInt.ParseIntOfDecimal | src/vs/workbench/parts/terminal/electron-browser/terminalActions.ts:228 | `parseInt` reads back the decimal rendering of any natural number, when a non-digit or nothing follows it |
| JsParseInt.LeadingDigitsOfDigits | src/vs/workbench/parts/terminal/electron-browser/terminalActions.ts:228 | the digit run `parseInt` reads from a digit string followed by a non-digit is exactly that digit string |
| JsParseInt.Decimal | src/vs/workbench/parts/terminal/electron-browser/terminalActions.ts:240 | the number in a selector label (assumed format `"<position + 1>: <title>"`) is a non-empty digit string with no leading zero, whose value is the number |
| JsParseInt.TrimStart | src/vs/workbench/parts/terminal/electron-browser/terminalActions.ts:228 | the result is a suffix of the input; what was dropped is white space; the result starts with a non-space or is empty |
| JsParseInt.LeadingDigits | src/vs/workbench/parts/terminal/electron-browser/terminalActions.ts:228 | the result is the longest all-digit prefix of the input |
| TerminalActions.ScrollDownTerminal | src/vs/workbench/parts/terminal/electron-browser/terminalActions.ts:263-269 | one scroll-down call on the active instance, and no call when there is none; list and active instance unchanged |
| TerminalActions.ScrollUpTerminal | src/vs/workbench/parts/terminal/electron-browser/terminalActions.ts:284-290 | one scroll-up call on the active instance, and no call when there is none; list and active instance unchanged |
| TerminalActions.SwitchTerminalInstanceActionItem.InSync | src/vs/workbench/parts/terminal/electron-browser/terminalActions.ts:240-247 | a synced selector has one option per instance, selects -1 exactly when nothing is active, and otherwise selects the position of the active instance |
| TerminalActions.SwitchTerminalInstanceActionItem.constructor | src/vs/workbench/parts/terminal/electron-browser/terminalActions.ts:236-244 | the options are the service's labels, the selection is the active index, and exactly the three events are subscribed in order |
| TerminalActions.SwitchTerminalInstanceActionItem.UpdateItems | src/vs/workbench/parts/terminal/electron-browser/terminalActions.ts:246-248 | restores options equal to the labels and selection equal to the active index, whatever changed in the service |
| TerminalActions.SwitchTerminalInstanceActionItem.OptionSwitchesToItsPosition | src/vs/workbench/parts/terminal/electron-browser/terminalActions.ts:228-247 | in a synced selector, option `k` parses to index `k` |
| TerminalService.Service.CreateInstance | src/vs/workbench/parts/terminal/electron-browser/terminalActions.ts:98 | appends exactly one handle, not in the list before, and returns it; older titles stay |
| TerminalService.Service.SetActiveInstance | src/vs/workbench/parts/terminal/electron-browser/terminalActions.ts:120 | the given live instance becomes active |
| TerminalService.Service.GetActiveInstance | src/vs/workbench/parts/terminal/electron-browser/terminalActions.ts:47 | returns the active instance or none |
| TerminalService.Service.DisposeInstance | src/vs/workbench/parts/terminal/electron-browser/terminalActions.ts:49 | removes exactly that handle, so the list shrinks by one and stays free of duplicates |
| TerminalService.Service.SetActiveInstanceByIndex | src/vs/workbench/parts/terminal/electron-browser/terminalActions.ts:229 | an index inside the list makes the instance at that position active |
| TerminalService.Service.InstanceLabels | src/vs/workbench/parts/terminal/electron-browser/terminalActions.ts:240 | one label per instance, in list order; label `k` is `"<k + 1>: <title of instance k>"` |
| TerminalService.Service.SetActiveInstanceToNext | src/vs/workbench/parts/terminal/electron-browser/terminalActions.ts:138 | moves the active pointer within the valid states; the list is unchanged and the call is logged |
| TerminalService.Service.SetActiveInstanceToPrevious | src/vs/workbench/parts/terminal/electron-browser/terminalActions.ts:156 | moves the active pointer within the valid states; the list is unchanged and the call is logged |
| TerminalService.Service.ShowPanel | src/vs/workbench/parts/terminal/electron-browser/terminalActions.ts:51 | only the `showPanel(focus)` call is logged; no instance state changes |
| TerminalService.Service.TogglePanel | src/vs/workbench/parts/terminal/electron-browser/terminalActions.ts:28 | only the toggle call is logged; no instance state changes |
| TerminalService.Service.CopySelection | src/vs/workbench/parts/terminal/electron-browser/terminalActions.ts:77 | only the copy call on the given live instance is logged |
| TerminalService.Service.Paste | src/vs/workbench/parts/terminal/electron-browser/terminalActions.ts:177 | only the paste call on the given live instance is logged |
| TerminalService.Service.SendText | src/vs/workbench/parts/terminal/electron-browser/terminalActions.ts:209 | only the send of the given text and new-line flag to the given live instance is logged |
| TerminalService.Service.ScrollDown | src/vs/workbench/parts/terminal/electron-browser/terminalActions.ts:266 | only the scroll-down call on the given live instance is logged |
| TerminalService.Service.ScrollUp | src/vs/workbench/parts/terminal/electron-browser/terminalActions.ts:287 | only the scroll-up call on the given live instance is logged |
| TerminalService.Service.ActiveInstanceIndex | src/vs/workbench/parts/terminal/electron-browser/terminalActions.ts:240 | -1 exactly when nothing is active; otherwise a position in the list holding the active instance |
| Seqs.Without | src/vs/workbench/parts/terminal/electron-browser/terminalActions.ts:49 | the removal keeps every other handle with its multiplicity and drops every copy of the removed one |
| Seqs.WithoutDistinct | src/vs/workbench/parts/terminal/electron-browser/terminalActions.ts:49-50 | removing a live handle from a duplicate-free list leaves a duplicate-free list one shorter |
| Seqs.WithoutAppended | src/vs/workbench/parts/terminal/electron-browser/terminalActions.ts:49 | removing a handle that was just appended gives back the earlier list |
| Seqs.IndexOf | src/vs/workbench/parts/terminal/electron-browser/terminalActions.ts:240 | -1 exactly when absent; otherwise the first position holding the element |
| Scenarios.CreateThenKill | src/vs/workbench/parts/terminal/electron-browser/terminalActions.ts:46-100 | create followed by kill gives back the instance list as it was |
| Scenarios.KillOnlyInstance | src/vs/workbench/parts/terminal/electron-browser/terminalActions.ts:46-55 | killing the only instance leaves no instance and no active one, and does not show the panel |
| Scenarios.PasteIntoEmptyPanel | src/vs/workbench/parts/terminal/electron-browser/terminalActions.ts:172-179 | with no instance, paste creates exactly one and pastes into it |
| Scenarios.RunWholeBuffer | src/vs/workbench/parts/terminal/electron-browser/terminalActions.ts:195-211 | an empty selection in an editor holding `echo hi` sends `echo hi` with a new line to a live instance |
| Scenarios.ChooseOption | src/vs/workbench/parts/terminal/electron-browser/terminalActions.ts:227-248 | choosing option `k` makes instance `k` active, and after the update the selector selects option `k` |
| Scenarios.FocusKeepsSelectorInSync | src/vs/workbench/parts/terminal/electron-browser/terminalActions.ts:115-122 | focusing while an instance is active leaves a synced selector in sync with no update |

## Left out

- `src/vs/workbench/contrib/notebook/browser/constants.ts`: it holds only command ids, sizes and context-key names, so it has no behaviour to model.
- The terminal service implementation is not part of this model. That includes the wrap-around of next and previous, which instance becomes active after a disposal, and whether `createInstance` activates the new instance. The bodies choose freely among valid states, so no contract depends on these rules.
- TerminalActions.FocusNextTerminal: does not state where the active pointer lands, because the wrap rule belongs to the service.
- TerminalActions.FocusPreviousTerminal: does not state where the active pointer lands, for the same reason.
- TerminalActions.PasteIntoTerminal: does not state which instance is active after it creates one, because that is `createInstance`'s rule, which is not modelled.
- TerminalActions.RunSelectedTextInTerminal: does not state which instance is active after it creates one, for the same reason.
- TerminalService.Service.SetActiveInstanceByIndex: does not state what an index outside the list does.
- TerminalService.Service.CreateInstance: does not state the new instance's title. It comes from the shell process.
- Assumed about the service: the label format `"<position + 1>: <title>"` of `getInstanceLabels` and the value -1 of `activeTerminalInstanceIndex` when nothing is active.
- `TPromise` results and the asynchronous completion of `showPanel` and `togglePanel`: each is an entry in the call log.
- Event delivery: the three subscriptions are recorded in `toDispose`. Delivering an event is a call of `UpdateItems`. Disposing the selector is inherited from `SelectActionItem`, outside the modelled file.
- `SelectActionItem` rendering, `nls.localize` labels, CSS class strings, action ids and dependency injection.
- The editor is given as plain inputs: its value, its selection, and the range text for each line ending. A missing focused editor, which makes the source fail, cannot occur because an editor is always passed.
- An undefined `item`, and a label whose prefix has no digits: both make the source fail with NaN or a crash. `SwitchTerminalInstance` requires `SwitchIndex(item)` to be a number.
- `parseInt` gives exact integers, and -0 in JavaScript is 0 here; with the `- 1` that follows, -0 gives the same index. Above 2^53 JavaScript rounds, so the index differs: `parseInt("9007199254740993: x") - 1` is 9007199254740991 in JavaScript and 9007199254740992 here. Such an index lies outside any instance list.
