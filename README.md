# Terminal portfolio: interpreter, keyboard handler, window lifecycle, moving car

A Dafny model of the parts of the terminal portfolio that decide anything:

- **Interpreter** (`interpreter.dfy`, from `src/components/TerminalPortfolio/useTerminal.ts`):
  the class `Session` holds the line buffer (`seq<Line>`) and the current view
  (`terminal`, `projects`, `about`, `contact`). `HandleCommand` echoes the command
  as `"$ " + command`, appends the response block of the matching `switch` branch
  and sets the view. `clear` empties the buffer without an echo. Any other string
  gets an error line and a hint. The pure function `Handle` specifies it, and the
  lemmas about `Handle` and its fold `Replay` state what the buffer and view become.
- **Keyboard handler and buttons** (`portfolio.dfy` and `text.dfy`, from
  `src/components/TerminalPortfolio/TerminalPortfolio.tsx`): on Enter, the input is
  trimmed and lower-cased. An empty result is dropped; anything else is dispatched
  and the input field is cleared. The quick-command buttons dispatch their names
  unchanged. Case-insensitivity lives only here: `Session.HandleCommand` matches
  exactly.
- **Window lifecycle** (`lifecycle.dfy`, from `src/hooks/useTerminalActions.ts`): one
  state, initially `open`, that `minimize`, `maximize` and `close` overwrite from
  any state.
- **Moving car** (`moving_car.dfy`, from `src/components/MovilCar/MovingCar.tsx`): the
  tick `position += direction * (boosting ? 4 : 2)`, clamped to [0, 92], with a turn
  and a boost at each edge. The car is hidden when the terminal holds more than 12
  lines.

Shared types (`types.dfy`) follow `src/types/index.ts`: `LineType`, `Line`, and
`Command` as any string. `TerminalState` is not declared there. It is defined in
`lifecycle.dfy` from the three literals its hook writes.

Where descriptions of the system and its code differ, the model follows the code:

- Command matching is exact and case-sensitive in the interpreter. There is no
  command registry, no prefix search and no autocomplete in the code. Case and
  surrounding whitespace are removed only by the keyboard handler, before dispatch.
- The window lifecycle has no guards. `maximize` reopens a closed window and
  `minimize` minimises it. Every operation is "last writer wins", not a no-op
  outside some edges.
- Empty input is dropped by the keyboard handler. The interpreter itself treats
  `""` like any unknown command: echo, error, hint.

## Model

| member | source | states |
|---|---|---|
| Interpreter.Start | src/components/TerminalPortfolio/useTerminal.ts:5-13 | the initial buffer is three `info` lines and the initial view is `terminal` |
| Interpreter.Session.constructor | src/components/TerminalPortfolio/useTerminal.ts:12-13 | a new session holds exactly the initial lines and view |
| Interpreter.Handle | src/components/TerminalPortfolio/useTerminal.ts:15-77 | `clear` gives the empty buffer and keeps the view; every other command keeps the old buffer as a prefix and appends `"$ " + command` of kind `command` first; the view changes only for help/projects/about/contact/home |
| Interpreter.Response | src/components/TerminalPortfolio/useTerminal.ts:18-74 | a recognised command prints only `output`/`info` lines; any other string prints exactly an `error` line then an `info` line |
| Interpreter.NextView | src/components/TerminalPortfolio/useTerminal.ts:18-74 | a command that selects no view (clear, unknown strings) leaves the view unchanged |
| Interpreter.Session.HandleCommand | src/components/TerminalPortfolio/useTerminal.ts:15-77 | the new buffer and view are `Handle` of the old ones; the buffer only grows except on `clear`, which empties it and keeps the view |
| Interpreter.Session.ClearTerminal | src/components/TerminalPortfolio/useTerminal.ts:79-81 | the buffer becomes empty and the view is kept |
| Interpreter.HelpCommand | src/components/TerminalPortfolio/useTerminal.ts:19-30 | `help` grows the buffer by 8 (echo and 7 `output` lines) and sets the view to `terminal` |
| Interpreter.ProjectsCommand | src/components/TerminalPortfolio/useTerminal.ts:32-35 | `projects` grows the buffer by 2 (echo and the loading line) and sets the view to `projects` |
| Interpreter.AboutCommand | src/components/TerminalPortfolio/useTerminal.ts:37-47 | `about` grows the buffer by 7 (echo and 6 `output` lines) and sets the view to `about` |
| Interpreter.ContactCommand | src/components/TerminalPortfolio/useTerminal.ts:49-58 | `contact` grows the buffer by 6 (echo and 5 `output` lines) and sets the view to `contact` |
| Interpreter.HomeCommand | src/components/TerminalPortfolio/useTerminal.ts:64-67 | `home` grows the buffer by 2 (echo and one `info` line) and sets the view to `terminal` |
| Interpreter.UnknownCommand | src/components/TerminalPortfolio/useTerminal.ts:69-73 | any string outside the six names appends exactly echo, `"Comando no reconocido: " + command` as `error`, and the hint; the view is unchanged |
| Interpreter.ExactMatch | src/components/TerminalPortfolio/useTerminal.ts:18 | `""` and `"HELP"` are unknown commands: each grows the buffer by 3 and keeps the view |
| Interpreter.ReplayAppend | src/components/TerminalPortfolio/useTerminal.ts:15-77 | running two series of commands one after the other is running their concatenation |
| Interpreter.AppendOnly | src/components/TerminalPortfolio/useTerminal.ts:16-76 | across any series of commands without `clear`, the old buffer stays as a prefix and the rest is exactly what the commands printed |
| Interpreter.AfterLastClear | src/components/TerminalPortfolio/useTerminal.ts:60-62 | after a series containing `clear`, the buffer is exactly what was printed after the last `clear` |
| Interpreter.ViewStable | src/components/TerminalPortfolio/useTerminal.ts:15-77 | a series of commands none of which selects a view leaves the view as it was |
| Text.TrimStart | src/components/TerminalPortfolio/TerminalPortfolio.tsx:37 | the result is a suffix of the input, everything dropped is whitespace, and it does not start with whitespace |
| Text.TrimEnd | src/components/TerminalPortfolio/TerminalPortfolio.tsx:37 | the result is a prefix of the input, everything dropped is whitespace, and it does not end with whitespace |
| Text.Trim | src/components/TerminalPortfolio/TerminalPortfolio.tsx:37 | the trimmed input is empty exactly when the input is all whitespace; otherwise it neither starts nor ends with whitespace |
| Text.TrimSurround | src/components/TerminalPortfolio/TerminalPortfolio.tsx:37 | the trimmed input is a contiguous slice of the input and every character outside that slice is whitespace |
| Text.TrimPadded | src/components/TerminalPortfolio/TerminalPortfolio.tsx:37 | whitespace around a word is removed and the word is kept whole |
| Text.ToLower | src/components/TerminalPortfolio/TerminalPortfolio.tsx:37 | same length, and each character is the lower-case form of the input character at the same place |
| Text.Normalise | src/components/TerminalPortfolio/TerminalPortfolio.tsx:37 | the dispatched text has no upper-case letter and no whitespace at either end, and is empty exactly when the input is all whitespace |
| Text.TrimStartLower | src/components/TerminalPortfolio/TerminalPortfolio.tsx:37 | dropping leading whitespace commutes with lower-casing |
| Text.TrimEndLower | src/components/TerminalPortfolio/TerminalPortfolio.tsx:37 | dropping trailing whitespace commutes with lower-casing |
| Text.TrimLower | src/components/TerminalPortfolio/TerminalPortfolio.tsx:37 | trimming commutes with lower-casing |
| Text.CaseInsensitive | src/components/TerminalPortfolio/TerminalPortfolio.tsx:37 | two inputs that lower-case alike are normalised to the same command |
| Text.NormaliseFixes | src/components/TerminalPortfolio/TerminalPortfolio.tsx:37 | an already normalised string is left unchanged |
| Text.NormaliseIdempotent | src/components/TerminalPortfolio/TerminalPortfolio.tsx:37 | normalising twice equals normalising once |
| Portfolio.Submission | src/components/TerminalPortfolio/TerminalPortfolio.tsx:36-38 | a command is submitted exactly when the key is Enter and the input is not all whitespace; the submitted command is non-empty and normalised |
| Portfolio.Console.constructor | src/components/TerminalPortfolio/TerminalPortfolio.tsx:9-11 | the component starts a fresh interpreter in its initial state; the input field is uncontrolled (no `value` prop) and so starts as `""` |
| Portfolio.Console.KeyDown | src/components/TerminalPortfolio/TerminalPortfolio.tsx:35-43 | with no submission, the input and the interpreter are unchanged; with one, the interpreter handles the normalised command and the input is reset to `""` |
| Portfolio.Console.Click | src/components/TerminalPortfolio/TerminalPortfolio.tsx:104-107 | a button dispatches its own name, unnormalised, to the interpreter |
| Portfolio.QuickCommandsRecognised | src/components/TerminalPortfolio/TerminalPortfolio.tsx:104 | every button names one of the six recognised commands, and typing that name reaches the same command |
| Portfolio.TypedNormalised | src/components/TerminalPortfolio/TerminalPortfolio.tsx:37-39 | typing an already trimmed, lower-case, non-empty command and pressing Enter submits it unchanged |
| Portfolio.PaddedWord | src/components/TerminalPortfolio/TerminalPortfolio.tsx:37-39 | whitespace typed around a word never matters: Enter submits the word lower-cased |
| Portfolio.KeyboardIgnoresCase | src/components/TerminalPortfolio/TerminalPortfolio.tsx:37-39 | inputs that differ only in letter case submit the same command |
| Portfolio.ResubmitStable | src/components/TerminalPortfolio/TerminalPortfolio.tsx:37-39 | typing a submitted command again submits the same command |
| Portfolio.MixedCaseHelp | src/components/TerminalPortfolio/TerminalPortfolio.tsx:37-39 | typing `"  HeLp "` and pressing Enter submits `help` |
| Lifecycle.Apply | src/hooks/useTerminalActions.ts:7-17 | minimize yields `minimized`, maximize yields `open`, close yields `closed`, and each result comes from exactly that operation |
| Lifecycle.Window.constructor | src/hooks/useTerminalActions.ts:5 | the window starts `open` |
| Lifecycle.Window.Minimize | src/hooks/useTerminalActions.ts:7-9 | the state becomes `minimized` from any state |
| Lifecycle.Window.Maximize | src/hooks/useTerminalActions.ts:11-13 | the state becomes `open` from any state, including `closed` |
| Lifecycle.Window.Close | src/hooks/useTerminalActions.ts:15-17 | the state becomes `closed` from any state |
| Lifecycle.Unguarded | src/hooks/useTerminalActions.ts:7-17 | no operation depends on the state it starts from; maximize reopens and minimize minimises a closed window |
| Lifecycle.Idempotent | src/hooks/useTerminalActions.ts:7-17 | applying an operation twice equals applying it once |
| Lifecycle.LastWriterWins | src/hooks/useTerminalActions.ts:5-17 | after any series of operations the state is the one the last operation writes, or the starting state if there was none |
| MovingCar.Advance | src/components/MovilCar/MovingCar.tsx:24-41 | the new position is always in [0, 92]; at 92 the car heads left and boosts, at 0 it heads right and boosts, strictly between it moved by the speed with direction and boost unchanged; a car on the road stays on it |
| MovingCar.TickCases | src/components/MovilCar/MovingCar.tsx:25-40 | a target at or past 92 gives (92, -1, boosting); at or below 0 gives (0, 1, boosting); strictly between gives the target with direction and boost unchanged |
| MovingCar.StaysOnRoad | src/components/MovilCar/MovingCar.tsx:24-41 | from a position in [0, 92] heading ±1, every number of ticks keeps the car in [0, 92] heading ±1 |
| MovingCar.Car.constructor | src/components/MovilCar/MovingCar.tsx:10-13 | the car starts at position 0, heading right, visible and not boosting |
| MovingCar.Car.Refresh | src/components/MovilCar/MovingCar.tsx:16-21 | the car is visible exactly when the terminal holds at most 12 lines; its motion is unchanged |
| MovingCar.Car.Tick | src/components/MovilCar/MovingCar.tsx:23-42 | a visible car advances by one tick and a hidden one does not move; the road invariant is kept |
| MovingCar.Car.BoostOff | src/components/MovilCar/MovingCar.tsx:31 | the delayed reset ends the boost and changes nothing else |

## Left out

- Text.Trim: removes only ASCII whitespace (space, tab, line feed, vertical tab, form feed, carriage return), not the other Unicode white-space and line-terminator characters that `String.prototype.trim` removes.
- Text.ToLower: lower-cases only the ASCII letters A to Z; the Unicode case mapping of `String.prototype.toLowerCase` (accented capitals, for one) is not modelled.
- Portfolio.Console.KeyDown: the key is a string and the input field is the public field `input`, which typing sets from outside; DOM events are not modelled.
- React mechanics (state hooks, memoised callbacks and their captured values, re-render timing) are not modelled: state cells are plain fields updated one command at a time.
- The scroll-to-bottom and click-to-focus effects, all JSX, the title-bar buttons, which have no handlers, and the projects grid shown in the `projects` view are rendering only.
- The project list passed through by the interpreter is static data it never inspects.
- MovingCar.Car.Tick: the 100 ms interval schedule is not modelled; a tick is one call.
- MovingCar.Car.BoostOff: the 1000 ms delay of the reset is not modelled; the reset is an explicit event a caller may send at any time.
- The boost particles of the car use randomness and exist only for rendering.
- The window lifecycle is not wired to any shown component, so the model has no caller for it.
- The animated backgrounds and particle fields are drawing code with floating point, timers and randomness, and are not part of this model.
