# bluey event loop, modelled in Dafny

bluey is a terminal Bluetooth manager. It shows two tables, the unpaired and the paired devices.
The user moves a selection with the arrow keys, pairs or connects with Enter, rescans with `s`
and quits with `q`. A single `select!` loop (`run` in `src/logic.rs`) owns all the state. That
state is the UI record `App`, the table of spinner tasks, and the adapter. The other tasks talk
to the loop through channels: the adapter bootstrap, the scanner, the pair and connect workers,
and the spinner timers. The devices' property streams are merged into one stream (a `SelectAll`)
that the loop polls directly.

This project models that loop and the pure decisions of the renderer (`src/ui.rs`):

- `options.dfy`: `Option`.
- `index_map.dfy`: the `IndexMap` behind both device lists. It is a sequence of distinct keys in
  insertion order, beside a map from key to value. The file models `insert`,
  `entry().and_modify()`, `get_index_mut`, `shift_remove` and `clear`. `Without` is an
  independent reference definition of ordered removal.
- `types.dfy`: `List`, `Device` and `Error`, a 48-bit `Address`, and `usize` with its wrapping add.
- `ui.dfy`: `App`, and what `render`/`table` decide for one frame. That is the legend text, each
  table's title, header, row cells and highlighted row, the throbber frame and the error popup's
  lines.
- `logic.dfy`: the loop's arms.
  - `Event` holds one resolution of the `select!`, together with the outside result that arm
    waited for: fetched device fields, a key, a lookup failure, a property change.
  - `Effect` holds the work an arm hands to the outside world: start or abort the scanner,
    subscribe to a device's properties, request pairing or connecting, start, abort or drop a
    spinner.
  - Each arm is a function over `State` (`App`, the set of addresses in the spinner table, and
    whether an adapter is held). `Step` dispatches one event; `RunEvents` runs a sequence and
    stops at the first event that quits or fails.
  - The class `EventLoop` performs the same arms in place, one method per arm. Each method is
    proved to end in the state and effects its function gives. `Run` is the loop itself, drawing
    a frame before each event.
- `properties.dfy`: what the loop guarantees. It covers:
  - each arm's effect on the lists, the error slot, the selection and the spinner table;
  - the spinner table following the effects;
  - when an address can end up in both lists;
  - a device held in one list, with an operation in flight, never being sent a second pair or
    connect request until its completion or a fresh intake of it;
  - the session of a speaker being discovered, paired, connected and failing.

## Behaviour as written

Where a plain description of the program and its code part ways, the model follows the code.

- Alias and connected changes edit the `paired` entry only (`src/logic.rs:126-131`). An alias
  change never reaches an `unpaired` entry.
- The spinner counter is advanced with `usize::wrapping_add`, and the frame is `index % 4`.
  `ThrobberAdvances` shows that the frames still cycle across the wrap.
- An intake files a device by its fetched paired flag, without removing it from the other list
  (`src/logic.rs:118-122`). So an address rediscovered after its paired flag changed can sit in
  both lists (`IntakeCanBreakDisjointness`). Every other step keeps the lists disjoint
  (`StepKeepsDisjoint`).
- Left and Right keep the selected row, and `s` empties the lists without resetting it. A row can
  therefore point past the end of the active list (`SwitchCanLeaveRowOutOfRange`). Enter then ends
  the program with the "should be impossible" error (`EnterGuards`, `EmptyListEnterIsFatal`).
- A failed handle lookup on Enter leaves the device loading without starting a spinner or a worker
  (`FailedLookupStrandsDevice`). Only a fresh intake, or the completion of a worker from an earlier
  request that is still running, clears it.
- A device can be sent a second pair or connect request while the first is still running.
  - A fresh intake of it (the scanner reporting it again, or rediscovery after `s`) writes a new
    entry with `loading: None` over the busy one (`src/logic.rs:113-122`, `IntakeFilesDevice`), and
    Enter then requests again (`EnterStartsOperation`).
  - An address held in both lists can be requested once per copy, since Enter only marks the
    selected copy as loading. `AtMostOneRequest` therefore assumes the address is in one list.
- A spinner table entry is not tied to the loading state.
  - A completion for an address in neither list keeps the entry.
  - Enter on a device whose old spinner is still in the table replaces the handle without aborting
    it. The model reports this as `SpinnerOrphaned`.
  - What the table does follow exactly is the spinner effects (`SpinnerTableFollowsEffects`).

## Model

The arm functions (`OnSpinnerTick` to `OnKey`), `RunEvents`, and the renderer's `Legend`, `Header`,
`ListName` and `Render` are specified through the lemma and method rows below, which state what
each of them computes.

| member | source | states |
|---|---|---|
| `IndexMaps.Empty` | src/logic.rs:202-203 | `clear` leaves a valid map with no entries: length 0 and every lookup `None`. |
| `IndexMaps.Insert` | src/logic.rs:118-122 | `insert` keeps the map valid. It maps the key to the new value and leaves every other key's value alone. A key already present keeps its position; a new key is appended at the end. |
| `IndexMaps.AndModify` | src/logic.rs:127 | `entry(k).and_modify(f)` keeps the key order. It applies `f` to the value under `k` when `k` is present, is a no-op otherwise, and leaves other keys alone. |
| `IndexMaps.GetIndex` | src/logic.rs:218 | `get_index` yields an entry exactly when the index is below the length. That entry is the key at that position with its value. |
| `IndexMaps.ShiftRemove` | src/logic.rs:134-141 | `shift_remove` returns the removed value, `None` exactly when the key is absent. It removes that key only, and the remaining keys are the reference removal `Without`, in their old order. |
| `IndexMaps.RemoveAfterInsert` | src/logic.rs:134-142 | Inserting a fresh key and shift-removing it again gives back the original map and the inserted value. |
| `IndexMaps.ReinsertMovesLast` | src/logic.rs:134-142 | Shift-removing a key and inserting it again keeps every entry and moves that key to the end. |
| `Types.WrappingAdd` | src/logic.rs:59 | `wrapping_add` is the sum modulo 2^64, and the plain sum when that fits. |
| `Ui.DefaultApp` | src/ui.rs:13-20 | `App::default()` selects row 0 of the unpaired list, has both lists empty and no error. |
| `Ui.Devices` | src/ui.rs:28-31 | `values().collect()` lists one device per entry, in the map's key order. |
| `Ui.LegendWhileError` | src/ui.rs:34-35 | While an error is shown the legend is exactly "esc: close". |
| `Ui.LegendWhileIdle` | src/ui.rs:36-56 | Otherwise the legend is "◀▼▲▶: navigate • q: quit • s: scan • ↵: " followed by "pair" for the unpaired list and "connect" for the paired one. |
| `Ui.Throbber` | src/ui.rs:90-91 | The frame shown for any counter is one of the four throbber frames. |
| `Ui.ThrobberAdvances` | src/ui.rs:90-91 | Advancing the counter by one with wrap-around shows the next frame in the cycle of four, also across the wrap. |
| `Ui.ThrobberPeriod` | src/ui.rs:11 | Two counters show the same frame exactly when they are equal modulo 4. |
| `Ui.RowCells` | src/ui.rs:85-93 | A row shows the alias; then the connected flag, in the paired table only; then the throbber frame, only while the device is loading. |
| `Ui.HeaderLabelsCells` | src/ui.rs:96-99 | The header is "Alias" (and "Connected" in the paired table) and labels the matching cells of every row. |
| `Ui.Highlight` | src/ui.rs:105-109 | A table highlights a row exactly when it is the active table and is not empty, and that row is the selected row. |
| `Ui.TableOf` | src/ui.rs:75-111 | A table has the list's name as title, is active exactly when selected, and has one row of cells per device in map order. |
| `Ui.HighlightOnExistingRow` | src/ui.rs:105-109 | With the selected row inside the active list, only the active table highlights, and on an existing row. |
| `Ui.PopupLines` | src/ui.rs:62-68 | There is no popup exactly when there is no error. Otherwise it has two lines, and the second is the message. |
| `Ui.PopupNamesProcess` | src/ui.rs:66 | The popup's first line is "Error while " followed by the process. |
| `Logic.Initial` | src/logic.rs:24-44 | The loop starts with the default `App`, an empty spinner table and no adapter. |
| `Logic.Locate` | src/logic.rs:56 | Lookups reach an address in `paired` whenever it is there, also when `unpaired` holds it too, and in `unpaired` only otherwise. They find nothing exactly when it is in neither list. |
| `Logic.Step` | src/logic.rs:54-292 | Every step keeps both lists valid. A step that ends the loop (`q`, an adapter failure, a terminal failure, the missing-row error) changes nothing and starts nothing. |
| `Logic.RunStopsEarly` | src/logic.rs:166-169 | Once the loop has stopped, later events change neither the state, the effects nor the status. |
| `Logic.RunOneMore` | src/logic.rs:46-54 | While the loop runs, one more event extends the run by exactly one step. |
| `Logic.EventLoop.constructor` | src/logic.rs:24-44 | The loop object starts in the initial state. |
| `Logic.EventLoop.HandleSpinnerTick` | src/logic.rs:55-60 | The in-place tick arm ends in the state `OnSpinnerTick` gives. |
| `Logic.EventLoop.HandleCompletion` | src/logic.rs:61-69 | The in-place completion arm ends in the state and effects `OnCompletion` gives. |
| `Logic.EventLoop.HandleErrorReport` | src/logic.rs:70-72 | The in-place error-report arm ends in the state `OnErrorReport` gives. |
| `Logic.EventLoop.HandleAdapter` | src/logic.rs:148-152 | The in-place adapter arm ends in the state, effects and status `OnAdapter` gives. |
| `Logic.EventLoop.HandleAddition` | src/logic.rs:73-123 | The in-place intake arm ends in the state and effects `OnAddition` gives. |
| `Logic.EventLoop.HandlePropertyChange` | src/logic.rs:124-147 | The in-place property arm (`and_modify`, `shift_remove` and `insert`) ends in the state `OnPropertyChange` gives. |
| `Logic.EventLoop.HandleEnter` | src/logic.rs:206-286 | The in-place Enter handling ends in the state, effects and status `OnEnter` gives. |
| `Logic.EventLoop.HandleKey` | src/logic.rs:153-292 | The in-place key arm ends in the state, effects and status `OnKey` gives. |
| `Logic.EventLoop.Handle` | src/logic.rs:54-292 | One turn of the `select!` ends in the state, effects and status `Step` gives. |
| `Logic.EventLoop.Draw` | src/logic.rs:47-52 | The frame drawn before event `j` renders the state the run has reached after the first `j` events. |
| `Logic.EventLoop.Run` | src/logic.rs:46-294 | The loop ends in the state, effects and status of `RunEvents`. It draws once before every event it takes, and once more when the events run out. The last frame is drawn before the event that stops it, which is the first stopping event; nothing is drawn after it. |
| `LoopProperties.AdapterArrives` | src/logic.rs:148-152 | The adapter arriving is kept and starts the scanner, with the UI and spinner table unchanged. A failure to get it ends the loop with its message, as does a failure to read the terminal (src/logic.rs:154). |
| `LoopProperties.IgnoredInputs` | src/logic.rs:145-290 | Other property changes, non-key terminal events, Esc with no error shown and unbound keys leave the state unchanged and start nothing. |
| `LoopProperties.TickAdvancesCounter` | src/logic.rs:55-60 | A tick advances, with wrap-around, the counter of the device the lookup reaches, and changes nothing else. When that device is idle or the address is unknown, the tick changes nothing. |
| `LoopProperties.TickShowsNextFrame` | src/ui.rs:90-91 | After a tick the device's row shows the next throbber frame. |
| `LoopProperties.CompletionEndsLoading` | src/logic.rs:61-69 | A completion for a known device ends its loading and removes its spinner from the table, aborting it when present. For an unknown address it changes nothing, the spinner entry included. |
| `LoopProperties.ErrorReportOverwrites` | src/logic.rs:70-72 | A reported error replaces the error slot and changes nothing else. |
| `LoopProperties.ErrorShownGatesKeys` | src/logic.rs:160-165 | While an error is shown, every key but Esc (`q` included) leaves the state as it is. Esc only closes the error. Neither starts anything. |
| `LoopProperties.IntakeFilesDevice` | src/logic.rs:73-123 | Without an adapter, or after any failed fetch, no list changes. The property stream is subscribed exactly when it was obtained. A full success files `Device(alias, connected, None)` under the list its paired flag names, in place or appended, and leaves the other list untouched. |
| `LoopProperties.AliasAndConnectedEditPairedOnly` | src/logic.rs:126-131 | Alias and connected changes edit only an existing `paired` entry. `unpaired`, other entries and the key order are unchanged. |
| `LoopProperties.PairedChangeMovesDevice` | src/logic.rs:132-143 | A paired change shift-removes the device from the list it leaves and inserts it, with all its fields, into the other list. It changes nothing when the device is not in the list it leaves. |
| `LoopProperties.PairThenUnpairRestores` | src/logic.rs:132-143 | Pairing, then unpairing, a device that was only unpaired restores `paired` exactly and `unpaired`'s entries, with that device now last. |
| `LoopProperties.UnpairAbsentIsNoop` | src/logic.rs:139-141 | Unpairing a device that is not in `paired` is dropped. |
| `LoopProperties.ArrowsMoveSelection` | src/logic.rs:171-194 | Down moves only when a row follows, and never in an empty list. Up moves only from below the first row. Left and Right switch the list and keep the row. Down and Up keep an in-range row in range. |
| `LoopProperties.SwitchCanLeaveRowOutOfRange` | src/logic.rs:185-194 | Switching lists can leave the row past the end of the new list. |
| `LoopProperties.QuitStops` | src/logic.rs:167-169 | `q` ends the loop normally with the state unchanged. |
| `LoopProperties.RescanEmptiesLists` | src/logic.rs:195-205 | `s` does nothing without an adapter. With one, it restarts the scanner and empties both lists, keeping the selection, the error and the spinner table. |
| `LoopProperties.EnterGuards` | src/logic.rs:206-227 | Enter does nothing without an adapter. A row outside the active list is fatal with the missing-row message. A device already loading is left alone. |
| `LoopProperties.EmptyListEnterIsFatal` | src/logic.rs:218-219 | Enter on an empty active list, e.g. right after `s`, ends the loop with that error. |
| `LoopProperties.EnterStartsOperation` | src/logic.rs:219-286 | Enter on an idle device sets only its loading to `Some(0)`. If the lookup failed, the error names "pairing with"/"connecting to" and the alias, and nothing is spawned. Otherwise the pair or connect worker is requested with that text, then a spinner is started and entered in the table. An old spinner for that address is dropped without abort. |
| `LoopProperties.FailedLookupStrandsDevice` | src/logic.rs:231-239 | After a failed lookup and Esc, Enter on the same device does nothing. |
| `LoopProperties.SpinnerTableFollowsEffects` | src/logic.rs:61-278 | An address enters the spinner table exactly when a spinner is started for it, and leaves it exactly when its spinner is aborted. Only spinners in the table are aborted or dropped. |
| `LoopProperties.StepKeepsExclusive` | src/logic.rs:73-147 | A step keeps an address out of one of the lists exactly when it is not an intake into the list opposite to the one holding it. |
| `LoopProperties.StepKeepsDisjoint` | src/logic.rs:73-147 | Disjoint lists stay disjoint through every step except such a cross intake. |
| `LoopProperties.IntakeCanBreakDisjointness` | src/logic.rs:118-122 | Finding address 1 unpaired, then paired, puts it in both lists. |
| `LoopProperties.StepKeepsBusy` | src/logic.rs:54-292 | A device whose every copy is loading stays so, and gets no request, through every step other than its completion or a fresh intake. |
| `LoopProperties.RequestLeavesBusy` | src/logic.rs:219-285 | Only Enter requests work, at most one request per step. For a device in one list, the request leaves it loading. |
| `LoopProperties.NoRedispatchWhileBusy` | src/logic.rs:46-294 | Over any run without its completion or a fresh intake, a loading device stays loading and gets no request. |
| `LoopProperties.AtMostOneRequest` | src/logic.rs:219-224 | After a request for a device held in one list, no second request goes out before its completion or a fresh intake of it. |
| `LoopProperties.DiscoverThenPair` | src/logic.rs:73-143 | A1 "Speaker", found unpaired, sits in `unpaired` alone. When its paired flag turns true it moves to `paired`, alias and connected flag kept. |
| `LoopProperties.EnterConnectsSpeaker` | src/logic.rs:206-285 | Enter on A1 in the paired list requests "connecting to Speaker", starts its spinner and sets loading to `Some(0)`. |
| `LoopProperties.ThreeTicks` | src/logic.rs:55-60 | Three ticks later the counter is 3. |
| `LoopProperties.CompletionThenFailure` | src/logic.rs:61-72 | Its completion ends loading and empties the spinner table, and the failure report shows "connection refused" while "connecting to Speaker". |

## Left out

- Concurrency: the fairness and ordering of `select!`, `tokio::spawn`, `JoinHandle::abort` and the 100 ms spinner sleep are not modelled. Events are an arbitrary sequence; spawned and aborted tasks appear as effects.
- Bluetooth I/O is not modelled; its results are event inputs:
  - the adapter bootstrap (`get_adapter`) and the scanner (`scan`, `discover_devices`);
  - `device`, `is_paired`, `is_connected`, `events` and `alias`;
  - `pair` and `connect`.
  A worker's completion and its error report arrive as separate `Completion` and `ErrorReport` events, and nothing forces them to arrive in the worker's order.
- The adapter and the scanner handle are a single flag. In the code the scanner handle is set whenever the adapter is, so `s` aborts a scanner exactly when an adapter is held.
- Terminal input: event decoding, key modifiers and key-release events are not modelled. Non-key events are `OtherTerminalEvent`, and a read failure is `TerminalFailed`.
- A failure to draw ends the loop (`src/logic.rs:47-52`); the model's drawing always succeeds.
- Layout, widths, styles, borders and the popup's title and border are not modelled. The `Display` of an address is not modelled either.
- The error texts of Bluetooth failures are input strings.
- `main.rs` is not modelled: log-file setup, terminal init and restore, `color_eyre` and tracing. Logging calls are not modelled anywhere.
- `selected_row` is an unbounded `nat` instead of a `usize`. Down increments it only below the list's length and Up decrements it only above 0, so it never reaches either bound of `usize`.
- `Logic.Step`: its own contract states only validity and what a stopping event does. What each arm does is stated by the lemmas in `LoopProperties`.
- The adapter channel has one slot and delivers once, then closes (`src/logic.rs:27-33`). The model lets `AdapterReady` arrive any number of times, each time starting a scanner without aborting the previous one. No proved property depends on it arriving only once.
