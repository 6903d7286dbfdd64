# CRC status bar: a verified model

The VS Code extension "Central Remote Config" (CRC) puts an indicator in the
status bar. The indicator is driven by `StatusBarManager` (src/statusbar.ts), a
singleton that holds the status bar item. The item shows one of five display
states from a fixed table, `CONFIG.STATES`: default, up to date, out of date,
error, and updating. Each state has a text and a tooltip, and every state except
default also has a theme colour. Five setters select a state, and all of them
go through `updateState`, which writes the state onto the item. `show` and
`hide` toggle visibility. `getInstance` creates the one instance lazily.

The model keeps two behaviours of the code exactly as written:

- `updateState` writes the colour only when the state has one. Going back to the
  default state therefore keeps the colour that was shown before, for example
  the error colour.
- `setError(message)` appends `": " + message` to the tooltip entry of the
  static table, and keeps it there. Error messages accumulate across calls, and
  across instances.

Modules:

- `Wrappers` (wrappers.dfy): `Option`.
- `StatusBarStates` (statusbar_states.dfy): the state table. It is a function
  of the current shared error tooltip, because that is the one table entry that
  changes. The file also holds the item's fields as a value, and `updateState`
  as a pure function `ApplyState`.
- `StatusBarCalls` (statusbar_calls.dfy): the reference semantics.
  - `Step` gives the effect of one public call on the item and the shared
    tooltip. `Run` gives the effect of a sequence of calls.
  - `VisibleAfter`, `ColorAfter`, `ErrorSuffix` and `LastSetter` define the
    same quantities independently. The first, second and fourth read the call
    sequence from its end; `ErrorSuffix` reads it from the front.
  - The lemmas prove that each of them agrees with `Run`.
- `StatusBar` (statusbar.dfy): the imperative model.
  - Class `StatusBarManager` has the item's fields: `text`, `tooltip`, `color`,
    `command` and `visible`.
  - Class `Statics` holds the static members. These are the singleton slot
    `instance` and the mutable `CONFIG.STATES.ERROR.TOOLTIP`.
  - Every setter, `show` and `hide` is proved to change the object exactly as
    `Step` does. So the lemmas about `Run` apply to any sequence of calls on
    the object.

`vscode.ThemeColor` becomes the enumeration `ThemeColorId`, whose `Id()` gives
the colour ids `statusBar.foreground` and `errorForeground`. The optional
`errorMessage` argument becomes `Option<string>`. The test `if (errorMessage)`
is JavaScript truthiness, so both `None` and `Some("")` leave the tooltip
unchanged (`Truthy`).

## Model

| member | source | states |
|---|---|---|
| StatusBarStates.StateFor | src/statusbar.ts:38-68 | Only the default state has no colour. Out-of-date and error are exactly the states showing "CRC ✘" and exactly those with `errorForeground`. Up-to-date and updating are exactly those with `statusBar.foreground`. The error state shows the current shared error tooltip. |
| StatusBarStates.FixedStates | src/statusbar.ts:38-68 | Every entry except ERROR is independent of the shared error tooltip. |
| StatusBarStates.OutOfDateAndErrorDifferOnlyInTooltip | src/statusbar.ts:51-61 | Out-of-date and error have the same text and colour. Their tooltips always differ while the error tooltip begins with its declared text. |
| StatusBarStates.StatesDistinguishable | src/statusbar.ts:38-68 | Two different states always differ on screen in their text or their tooltip, without relying on the colour, as long as the error tooltip begins with its declared text. |
| StatusBarStates.Truthy | src/statusbar.ts:132 | Definition: JavaScript truthiness of an optional string, as tested by `if (errorMessage)`. It is true exactly for a present, non-empty message. |
| StatusBarStates.AppendErrorMessage | src/statusbar.ts:130-134 | The old tooltip is always a prefix of the new one. The tooltip changes exactly when the message is present and non-empty, and then grows by ": " followed by the message. |
| StatusBarStates.ApplyState | src/statusbar.ts:153-163 | `updateState` touches only text, tooltip and colour. It shows the state's text and tooltip. It sets the state's colour if the state has one, and otherwise keeps the previous colour. |
| StatusBarStates.ApplyStateIdempotent | src/statusbar.ts:153-163 | Applying the same state twice is the same as applying it once. |
| StatusBarStates.ColouredStateForgetsPrevious | src/statusbar.ts:158-162 | After a state that has a colour, the previously shown state leaves no trace on the item. |
| StatusBarStates.DefaultKeepsPreviousColour | src/statusbar.ts:108-110 | After any coloured state, `setDefaultState` shows "CRC" and the default tooltip in that state's colour. |
| StatusBarCalls.Setter | src/statusbar.ts:108-143 | Exactly the five setters select a state. `show` and `hide` select none. |
| StatusBarCalls.Step | src/statusbar.ts:105-177 | No call changes the command. The shared tooltip only grows, and only `setError` changes it. `show` and `hide` change visibility and nothing else, and no setter changes visibility. A setter shows its state's text and tooltip, and for the error state this is the updated shared tooltip. |
| StatusBarCalls.Run | src/statusbar.ts:105-177 | Any sequence of calls leaves the command unchanged. The shared tooltip before the sequence is a prefix of the one after it. |
| StatusBarCalls.Constructed | src/statusbar.ts:75-83 | A new instance shows "CRC" and "Central Remote Config" with no colour. Its command is the constructor argument, and it is visible. |
| StatusBarCalls.Initial | src/statusbar.ts:57-61 | Right after the first `getInstance`, the item shows "CRC" and "Central Remote Config" with no colour, carries the given command and is visible. The shared error tooltip is the declared text. |
| StatusBarCalls.RunSnoc | src/statusbar.ts:105-177 | Running one more call is one more `Step` applied to the result of the run. |
| StatusBarCalls.RunVisible | src/statusbar.ts:165-177 | After any calls, the item is visible exactly as the last `show`/`hide` left it, or as before if there was none. |
| StatusBarCalls.RunColor | src/statusbar.ts:153-163 | After any calls, the colour is that of the last call whose state has a colour, or the previous colour if there was none. `setDefaultState` never resets it. |
| StatusBarCalls.RunErrorTooltip | src/statusbar.ts:130-136 | After calls carrying messages m1..mk (non-empty, given to `setError`), the shared tooltip is the old one followed by ": m1"…": mk". |
| StatusBarCalls.RunShowsLastState | src/statusbar.ts:153-163 | The text and tooltip shown are those of the last setter's state, with the current shared tooltip for the error state. They are unchanged when no setter was called. |
| StatusBarCalls.ErrorNeverLooksOutOfDate | src/statusbar.ts:51-61 | From the declared table, the error tooltip always begins with its declared text, so the error state never looks like the out-of-date state. |
| StatusBarCalls.ErrorMessagesPileUp | src/statusbar.ts:130-136 | Example: `setError("m1")`, `setError()`, `setError("")`, `setError("m2")` leave the tooltip showing the declared text followed by ": m1: m2". |
| StatusBar.Statics.constructor | src/statusbar.ts:22 | Initially there is no instance, and the error tooltip is the declared one. |
| StatusBar.Statics.GetInstance | src/statusbar.ts:91-96 | The first call creates a fresh instance in the constructed state. Every later call returns that same instance unchanged and ignores its command argument. The shared tooltip is not changed. |
| StatusBar.StatusBarManager.constructor | src/statusbar.ts:75-83 | The new object is in the state `Constructed` gives: default state, the given command, visible. |
| StatusBar.StatusBarManager.SetDefaultState | src/statusbar.ts:108-110 | Behaves as `Step`: "CRC", the default tooltip, the colour unchanged. |
| StatusBar.StatusBarManager.SetUpToDate | src/statusbar.ts:115-117 | Behaves as `Step`: the up-to-date text, tooltip and `statusBar.foreground`. |
| StatusBar.StatusBarManager.SetOutOfDate | src/statusbar.ts:122-124 | Behaves as `Step`: the out-of-date text, tooltip and `errorForeground`. |
| StatusBar.StatusBarManager.SetError | src/statusbar.ts:130-136 | Behaves as `Step`: the shared tooltip becomes `AppendErrorMessage` of its old value, and the item shows "CRC ✘", that tooltip and `errorForeground`. |
| StatusBar.StatusBarManager.SetUpdating | src/statusbar.ts:141-143 | Behaves as `Step`: the updating text, tooltip and `statusBar.foreground`. |
| StatusBar.StatusBarManager.UpdateState | src/statusbar.ts:153-163 | The item becomes `ApplyState` of the old item and the state. |
| StatusBar.StatusBarManager.Show | src/statusbar.ts:168-170 | Behaves as `Step`: the item becomes visible and nothing else changes. |
| StatusBar.StatusBarManager.Hide | src/statusbar.ts:175-177 | Behaves as `Step`: the item becomes hidden and nothing else changes. |

## Left out

- `dispose` (src/statusbar.ts:101-103) releases the host's item, which is a foreign call with no state in this model.
- `CONFIG.ALIGNMENT` and `CONFIG.PRIORITY` are not modelled. They are only passed to the host's `createStatusBarItem`, and rendering is not modelled.
- The fresh item from `createStatusBarItem` is modelled with empty text and tooltip, no colour, no command, and hidden. The constructor overwrites the text, tooltip, command and visibility. It never writes the colour, because the default state has none. So the "no colour" after construction (`Constructed`) rests on the assumption that the host creates an item without a colour.
- `private` is not modelled. In the source, the manager's constructor, `updateState`, `instance` and `CONFIG` are private. Here `StatusBarManager`'s constructor is public, so a client can build a second manager beside the one `GetInstance` returns, and a second `Statics` can be created too. The singleton property holds only for clients that obtain the manager through `GetInstance` on one `Statics` object.
- Nothing from src/extension.ts is modelled. It is host wiring and I/O: command registration and the quick-pick menu, a separate status bar item, the HTTPS download, and file writes and renames. It never uses `StatusBarManager`. So the model has no link from download outcomes to status states.
- src/tests/mocha.test.mjs is not modelled. It asserts nothing about this code.
