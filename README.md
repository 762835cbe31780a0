# Drum step sequencer — a Dafny model

This project models the drum step sequencer of a small browser music tool
(kserjey/daw). The sequencer has three parts:

- A pattern grid. There is one row per drum of the kit and one column per step. Each cell is a number, and a cell counts as "on" when it is truthy (non-zero).
- A tick callback. The looping sequence calls it once per step with the step's column and a scheduled time. It starts the sample of every drum whose cell in that column is on, and then publishes the column as the current step.
- A play/stop switch. It drives the audio transport.

The component also renders the cells as clickable steps, draws a step indicator over the current column, and labels the play button.

The model is in five files:

- `step_grid.dfy` (module `StepGrid`). Patterns as values (`seq<seq<int>>`): the initial all-zero pattern, and the toggle of one cell with its properties.
- `drum_kit.dfy` (module `DrumKit`). The kit as a list of `(name, source)` drums. It gives the row-to-name table and the name-to-sample record that the player bank is built from. That record is a left fold in which later entries override earlier ones.
- `use_sequence.dfy` (module `UseSequence`). This is the sequencer hook:
  - `ActiveDrums`, the rows a column fires, with its properties;
  - `Triggers`, the ordered list of `start(name, time)` calls for one tick;
  - class `Sequencer`, which holds the pattern state, the published current step and the three refs. Its `Tick` method loops over the rows and is proved to produce `Triggers`.
- `beat_sequencer.dfy` (module `BeatSequencer`). The component:
  - a `Transport` with a `running` flag;
  - the `StartStop` state machine and the effect that drives the transport;
  - the rendered step table and its click wiring;
  - the step indicator's geometry;
  - the button label.
- `app_kit.dfy` (module `AppKit`). The three-drum, sixteen-step kit that the application mounts the sequencer with, used as worked examples.

Audio playback is an output trace. A tick returns the `Start(name, time)` calls it makes, in order. The transport is seen only through its `running` flag. Times are abstract `real` values that are passed through unchanged.

What the code does not do:

- The code does not check indices, so an out-of-range toggle is a precondition.
- There is no resize, no tempo handling and no per-drum error isolation.
- The published step is the column index. The columns come from the sequence's event list `0..stepsLength-1`.

## Model

| member | source | states |
|---|---|---|
| `StepGrid.InitialStepState` | src/components/BeatSequencer/useSequence.js:11-13 | the initial pattern has `drumKitLength` rows of `stepsLength` cells, every cell falsy, and it is 0/1-valued |
| `StepGrid.Flip` | src/components/BeatSequencer/useSequence.js:24 | a toggled cell becomes 0 or 1, and it is truthy exactly when the old value was falsy |
| `StepGrid.Toggled` | src/components/BeatSequencer/useSequence.js:20-27 | toggling (drumIndex, stepIndex) keeps the row count and every row length, sets that cell to 1 if it was 0 and to 0 otherwise, and leaves every other cell unchanged |
| `StepGrid.ToggledShaped` | src/components/BeatSequencer/useSequence.js:20-27 | a pattern of `drums × steps` is still `drums × steps` after a toggle |
| `StepGrid.ToggledBinary` | src/components/BeatSequencer/useSequence.js:24 | a 0/1 pattern stays 0/1 after a toggle |
| `StepGrid.ToggledInvolution` | src/components/BeatSequencer/useSequence.js:23-24 | toggling the same 0/1 cell twice gives back the original pattern |
| `StepGrid.ToggledTwiceOnTwo` | src/components/BeatSequencer/useSequence.js:23-24 | the 0/1 condition is needed: a cell holding 2 comes back as 1 after two toggles |
| `DrumKit.DrumPositions` | src/components/BeatSequencer/useSequence.js:33 | the drum positions have the kit's length, and position `k` is the name of kit entry `k` |
| `DrumKit.PlayersRecord` | src/components/BeatSequencer/useSequence.js:7 | the `reduce` that folds the kit, left to right, into a name-to-source record; what it contains is stated by `PlayersRecordKeys` and `PlayersRecordLastWins` |
| `DrumKit.PlayersRecordKeys` | src/components/BeatSequencer/useSequence.js:5-8 | the keys of the folded players record are exactly the names in the kit |
| `DrumKit.PlayersRecordLastWins` | src/components/BeatSequencer/useSequence.js:7 | a name maps to the source of the last kit entry that carries it, so later duplicates override earlier ones |
| `DrumKit.PositionsResolve` | src/components/BeatSequencer/useSequence.js:52-53 | the name at every drum position is a key of the players record, and it resolves to the sample of the last entry with that name |
| `UseSequence.CellAt` | src/components/BeatSequencer/useSequence.js:48 | `row[column]` is the cell inside the row, and past the row's end it is falsy (`undefined`) |
| `UseSequence.ActiveDrums` | src/components/BeatSequencer/useSequence.js:48-55 | the rows a column fires are exactly the rows whose cell there is truthy, listed in strictly ascending order |
| `UseSequence.Triggers` | src/components/BeatSequencer/useSequence.js:50-55 | the `start` calls of one tick: one per row of `ActiveDrums`, in that order, on the row's drum name; its contract adds that there are at most as many calls as rows and all are at the tick's time |
| `UseSequence.TriggersSnoc` | src/components/BeatSequencer/useSequence.js:50-55 | walking one more row appends that row's `start(name, time)` call exactly when its cell is truthy |
| `UseSequence.SilentColumn` | src/components/BeatSequencer/useSequence.js:50-51 | a column with no truthy cell fires no row |
| `UseSequence.NoTriggersOnInitialGrid` | src/components/BeatSequencer/useSequence.js:47-55 | a tick on any column of a fresh pattern starts no drum |
| `UseSequence.SameColumnSameActive` | src/components/BeatSequencer/useSequence.js:48-51 | two patterns that agree on a column fire the same rows on it |
| `UseSequence.ToggledTriggers` | src/components/BeatSequencer/useSequence.js:20-27 | after toggling (i, j), column j fires row i exactly when it did not before and every other row as before, and every other column fires the same rows as before |
| `UseSequence.SequenceEvents` | src/components/BeatSequencer/useSequence.js:59 | the sequence's events are `0, 1, …, stepsLength-1` in order, and a column is an event exactly when it is below `stepsLength` |
| `UseSequence.Sequencer.constructor` | src/components/BeatSequencer/useSequence.js:15-43 | after mounting, the pattern is the initial all-zero pattern, the current step is 0, and the refs hold the pattern, the drum positions and the players record |
| `UseSequence.Sequencer.ToggleStep` | src/components/BeatSequencer/useSequence.js:20-27 | the pattern state becomes exactly `Toggled` of the old pattern, and the sequencer's invariant (shape, 0/1 cells, refs) is kept |
| `UseSequence.Sequencer.SyncStepStateRef` | src/components/BeatSequencer/useSequence.js:39-43 | after the effect, the tick callback's ref holds the latest pattern |
| `UseSequence.Sequencer.Tick` | src/components/BeatSequencer/useSequence.js:45-58 | a tick returns exactly `Triggers` of the ref'd pattern: one start per truthy row, in row order, on the row's drum name, all at the tick's time. Every name it starts is a key of the players record. The tick then publishes `currentStep == column`, which is below `stepsLength` |
| `UseSequence.EditThenTick` | src/components/BeatSequencer/useSequence.js:20-57 | a toggle, then the effect that refreshes the pattern ref, then a tick: the tick starts exactly `Triggers` of the toggled pattern and publishes its column |
| `BeatSequencer.Transport.Start` | src/components/BeatSequencer/BeatSequencer.jsx:62 | after `Tone.Transport.start()` the transport runs |
| `BeatSequencer.Transport.Stop` | src/components/BeatSequencer/BeatSequencer.jsx:64 | after `Tone.Transport.stop()` the transport does not run |
| `BeatSequencer.StartStop.constructor` | src/components/BeatSequencer/BeatSequencer.jsx:56-66 | the switch starts off, and the mount run of the effect leaves the transport stopped |
| `BeatSequencer.StartStop.Toggle` | src/components/BeatSequencer/BeatSequencer.jsx:58 | `toggle` flips `on` |
| `BeatSequencer.StartStop.SyncTransport` | src/components/BeatSequencer/BeatSequencer.jsx:60-66 | after the effect, the transport runs exactly when `on` holds |
| `BeatSequencer.StartStop.PressPlay` | src/components/BeatSequencer/BeatSequencer.jsx:58-66 | a press flips `on`, leaves the transport running exactly when `on` holds, and the label reads "Stop" exactly while it runs |
| `BeatSequencer.PressTwice` | src/components/BeatSequencer/BeatSequencer.jsx:57-58 | two presses restore the switch and the label, and the transport's state again matches the switch |
| `BeatSequencer.PlayLabel` | src/components/BeatSequencer/BeatSequencer.jsx:103 | the label is "Stop" exactly while playing and "Play" otherwise |
| `BeatSequencer.RenderPattern` | src/components/BeatSequencer/BeatSequencer.jsx:88-96 | the nested `map` that draws one step per cell; its shape, targets and active flags are stated by `RenderPatternCells` |
| `BeatSequencer.Click` | src/components/BeatSequencer/BeatSequencer.jsx:94 | a step's `onClick`: it toggles the cell the step targets; `ClickFlipsOnlyThatStep` states what that changes |
| `BeatSequencer.ClickStep` | src/components/BeatSequencer/BeatSequencer.jsx:94 | clicking the step drawn at (i, j) changes the sequencer's pattern to `Toggled` at (i, j) and keeps its invariant |
| `BeatSequencer.RenderPatternCells` | src/components/BeatSequencer/BeatSequencer.jsx:88-96 | the step table has the pattern's shape, each step targets its own cell, and a step is active exactly when its cell is truthy |
| `BeatSequencer.ClickFlipsOnlyThatStep` | src/components/BeatSequencer/BeatSequencer.jsx:88-96 | after a click on step (i, j), that step's active flag flips, and every other cell and every other rendered step is unchanged |
| `BeatSequencer.IndicatorLeft` | src/components/BeatSequencer/BeatSequencer.jsx:37 | the indicator's left offset is a multiple of the step width, and it is the left edge of column `currentStep` |
| `BeatSequencer.IndicatorCoversColumn` | src/components/BeatSequencer/BeatSequencer.jsx:33-48 | with left offset `currentStep * 24` and width 24, equal to a step's width, the indicator covers a pixel exactly when the pixel lies in column `currentStep` |
| `AppKit.ExamplePattern` | src/App.jsx:7-20 | with the application's kit and a fresh 16-step pattern with Kick and HiHat on step 0 and Snare on step 4: step 0 starts Kick then HiHat, step 4 starts Snare, step 1 starts nothing |
| `AppKit.ExamplePlayers` | src/App.jsx:7-20 | the application's players record maps each of Kick, HiHat and Snare to its own sample |

## Left out

- Sample playback, looping and timing are left out: the player bank, routing to the output, `start(time)`, the transport, the sequence's loop and its sixteenth-note interval, frame-synchronised drawing and `dispose()`. They are calls into an audio library with real-time floating-point timing. The model keeps only the ordered trace of `start(name, time)` calls and a `running` flag.
- UseSequence.Sequencer.Tick: publishes the current step at once. The source defers `setCurrentStep` to the next animation frame, and the model does not represent that deferral.
- The React lifecycle is not modelled: when hooks and effects re-run, cleanup, and the order between the ref sync and ticks. Effects are explicit methods (`SyncStepStateRef`, `SyncTransport`), and the constructor runs the mount effects. The kit and `stepsLength` are fixed for a sequencer's lifetime.
  - The source keeps the old pattern when either of them changes. A longer sequence then reads past the end of the rows, which `CellAt` models as falsy. A kit with fewer rows than the pattern would make the player lookup fail.
  - The model does not reach these states.
- Row aliasing: the initial pattern in the source shares one row array among all rows. Its copy-on-write update copies only the touched row, so the rows behave as independent values. The model uses immutable sequences, which have no aliasing to track.
- UseSequence.Sequencer.ToggleStep: requires both indices in range. Out of range, the source would throw (bad row) or write a 1 past a row's end (bad column).
- Transport start/stop is modelled as setting the flag, so repeated starts or stops are idempotent. What the transport does beyond that is not part of this model.
- The drum-name list rendered beside the grid (`BeatSequencer.jsx:81-83`) is the same kit-order name table as `DrumPositions`. It is not modelled separately.
- CSS layout beyond the two 24-pixel widths and the left offset is not modelled: borders, border collapsing, the box model and colours. `IndicatorCoversColumn` states only that the indicator's offset and width line it up with one column.
- The component's default props (`drumKit = []`, `stepsLength = 8`, `BeatSequencer.jsx:71`) are not modelled: `UseSequence.Sequencer`'s constructor takes both explicitly.
- `process.env.PUBLIC_URL` is dropped from the example kit's sample paths: it is build configuration.
- The tempo header, the piano roll and its presets, and the application shell are not part of this model. They are layout, drawing, floating-point tempo or constant data.
