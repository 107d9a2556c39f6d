# gnostr-time: change detection and scrolling log, in Dafny

`gnostr-time` is a terminal dashboard. It polls three numeric signals
(weeble, blockheight and wobble) in an endless loop, logs a line whenever a
signal advances, and shows the newest log lines in a panel at the bottom of
the screen. This project models the sequential logic inside that program and
proves properties of it:

- `rust_prims.dfy` (module `RustPrims`): the `u16` coordinates, the bounds of
  `i32`, and `str::parse::<i32>` as Rust's core library defines it. That is an
  optional `+` or `-`, then one or more ASCII digits and nothing else, with
  the value inside `i32`. It is proved to invert a decimal renderer on the
  whole `i32` range.
- `log_state.dfy` (module `LogState`): `LogWidgetState`, the log history, as
  a class with a `seq<string>` field. `WriteLine` appends and `Flush` clears
  it in place. A `Replay` function over the logger's call sequence states
  what many calls do together.
- `log_view.dfy` (module `LogView`): `Rect`, `edge_inset`, and the two
  `render` methods of `LogWidget`. The terminal buffer is modelled as the
  list of `set_string(col, row, text)` calls a render makes. The selection
  `history.iter().rev().take(n).rev()` is modelled as written and proved to
  be the last `min(n, |history|)` lines in their original order.
  `DrawLogPanel` is the part of `draw` that renders the log panel into the
  lower layout chunk, inset by 1.
- `dashboard.dfy` (module `Dashboard`): the change test, the start-up
  seeding, and one pass of the loop body (`Tick`). The three `if` blocks are
  the methods `CheckWeeble`, `CheckBlockheight` and `CheckWobble`. The loop
  variables live in the class `Dashboard`, and the pure functions
  `NextSnapshot` and `TickLines` state what one tick does.

Overflow and underflow of Rust's fixed-width integers are modelled as
preconditions, which is what a debug build panics on. This covers
`area.height - 1` and `area.top() + y` in `render`, the four updates in
`edge_inset`, and `i += 1` on the `i32` tick counter.

Values the program fetches are inputs. `TickFetches` has one field for each
fetch call whose result one tick uses, in call order. Some log lines re-fetch
a signal instead of using the value just stored. The wobble block logs a
fresh `get_wobble()` rather than the wobble it has just stored. The model
keeps that: such a line carries its own input.

The fallback for an unparseable last-seen value is 0 (`unwrap_or(0)`), not
the smallest `i32`. So a negative fetched value never replaces an unparseable
last-seen one (the fourth `ensures` of `Advanced`). The panel shows
`height - 1` lines, not `height`.

The log panel is drawn into the lower 10% chunk of the screen, inset by 1.
Nothing in `draw` makes that chunk at least 2 rows high. On a small terminal
it can be 0 or 1 rows, and then `edge_inset` or `area.height - 1` underflows
`u16`. With a 2-row chunk the panel shows no line at all. `DrawLogPanel`
therefore requires a height of at least 2, and its result has
`min(height - 2, len)` lines.

The model assumes the logger writes each `info!` message into the history
unchanged, with no prefix such as a level or a timestamp. The logger's
dispatch is not part of this model. The "starts with" statements of
`TickLineCount` and `WeebleAdvances` rest on that assumption.

## Model

| member | source | states |
|---|---|---|
| RustPrims.ParseI32 | src/bin/gnostr-time.rs:74 | A parsed value lies in `[i32::MIN, i32::MAX]`. The string is non-empty and ends in a digit. Its first character is a digit or a sign, and every later character is a digit. |
| RustPrims.ParseFormatI32 | src/bin/gnostr-time.rs:74 | Parsing the decimal rendering of any `i32` gives that value back. |
| RustPrims.ParseAcceptsDigits | src/bin/gnostr-time.rs:74 | One or more digits, bare or after a `+` or `-`, parse to their value whenever it is inside `i32`. Leading zeros are allowed. |
| RustPrims.ParseRejectsOverflow | src/bin/gnostr-time.rs:74 | One or more digits whose value lies outside `i32`, bare or after a `+` or `-`, do not parse. This is Rust's overflow error. |
| RustPrims.ParseRejectsNonDigit | src/bin/gnostr-time.rs:95-96 | A string with a non-digit after its first character (a space, a letter, a point) does not parse. |
| RustPrims.ParseOrFallbackBounds | src/bin/gnostr-time.rs:111 | `parse().unwrap_or(0)` never exceeds `i32::MAX`. An unparseable string under `unwrap_or(i32::MAX)` is `i32::MAX`. |
| Dashboard.Advanced | src/bin/gnostr-time.rs:74-75 | The change test, case by case. It never fires at tick 0. At a later tick, an unparseable fetched value always fires. Two parseable values fire iff the fetched one is `>=` the last one. A parseable value against an unparseable last one fires iff it is `>= 0`. |
| Dashboard.EqualValueAdvances | src/bin/gnostr-time.rs:111-113 | Because the test is `>=`, an unchanged value advances, and is logged again, at every tick after the first. |
| Dashboard.Triple | src/bin/gnostr-time.rs:85-90 | The `"{:}/{:}/{:}"` line has the three values plus two separators, and it starts with the first value. |
| Dashboard.FirstTick | src/bin/gnostr-time.rs:74-137 | At tick 0 the three fields keep their values, the counter becomes 1, and the only line logged is the summary line. |
| Dashboard.TickUpdatesFields | src/bin/gnostr-time.rs:84-121 | After a tick, each field holds the fetched value if that signal advanced, and its old value if not. The counter goes up by exactly one. |
| Dashboard.TickLineCount | src/bin/gnostr-time.rs:85-134 | A tick logs one line per advanced signal plus one summary line. The summary line is last. A weeble line comes first and starts with the new weeble. |
| Dashboard.WeebleAdvances | src/bin/gnostr-time.rs:73-90 | At tick 1, last weeble "100" and fetched "150": the weeble becomes "150" and the first line logged starts with "150". |
| Dashboard.UnparseableBlockheightAdvances | src/bin/gnostr-time.rs:94-108 | At tick 1, last blockheight "200" and fetched "abc": the blockheight becomes "abc", and a line is logged besides the summary. |
| Dashboard.Dashboard.Start | src/bin/gnostr-time.rs:65-69 | Start-up seeds the three fields from the first fetches and sets the counter to 0. It appends exactly one line, `weeble/blockheight/wobble`, to the history. |
| Dashboard.Dashboard.CheckWeeble | src/bin/gnostr-time.rs:73-91 | The weeble becomes the fetched value exactly when it advanced, and then exactly one line with it is appended. The other fields and the counter are unchanged. |
| Dashboard.Dashboard.CheckBlockheight | src/bin/gnostr-time.rs:94-108 | The same for blockheight. Its line holds the current weeble and the new blockheight. |
| Dashboard.Dashboard.CheckWobble | src/bin/gnostr-time.rs:110-123 | The same for wobble. Its line holds the current weeble and blockheight and a re-fetched wobble. |
| Dashboard.Dashboard.Tick | src/bin/gnostr-time.rs:71-137 | One loop pass leaves the fields and counter as `NextSnapshot` says. It appends `TickLines` to the history and keeps every earlier line. |
| LogState.LogWidgetState.constructor | src/bin/gnostr-time.rs:19-22 | The default state has an empty history. |
| LogState.LogWidgetState.WriteLine | src/bin/gnostr-time.rs:48-50 | The history grows by one. Earlier lines stay in place and in order, and the message is the new last line. This is one step of `Replay`, so the `Replay` lemmas apply to the class. |
| LogState.LogWidgetState.Flush | src/bin/gnostr-time.rs:52-54 | The history is empty afterwards. This is one step of `Replay`. |
| LogState.ReplayConcat | src/bin/gnostr-time.rs:47-55 | Running two sequences of logger calls one after the other is the same as running their concatenation. |
| LogState.ReplayWrites | src/bin/gnostr-time.rs:48-50 | N writes without a flush keep the old history as a prefix. They add exactly the N messages after it, in the order written. |
| LogState.ReplayAfterFlush | src/bin/gnostr-time.rs:52-54 | After a flush, the history is exactly the messages written since then, in order, and holds nothing from before the flush. |
| LogView.EdgeInset | src/bin/gnostr-time.rs:198-206 | The top-left corner moves in by `margin`, and the right and bottom edges stay put, so each size shrinks by `margin` once. It requires that `x + margin` and `y + margin` fit in `u16` and that `margin` does not exceed the width or height. |
| LogView.EdgeInsetTwice | src/bin/gnostr-time.rs:198-206 | Two insets in a row equal one inset by the sum of the margins. |
| LogView.VisibleIsSuffix | src/bin/gnostr-time.rs:33 | `rev().take(n).rev()` yields exactly the last `min(n, len)` lines of the history, in their original order. |
| LogView.VisibleFiveInFour | src/bin/gnostr-time.rs:31-33 | With lines a to e and a panel of height 4, the lines shown are c, d, e. |
| LogView.Render | src/bin/gnostr-time.rs:30-38 | It requires height at least 1 and a last row that fits in `u16`. It writes exactly `min(height - 1, len)` lines: line `y` of the history's suffix goes to column `left` and row `top + y`. The history is only read. |
| LogView.RenderDefault | src/bin/gnostr-time.rs:42-44 | Rendering without a state uses an empty default state and writes nothing. |
| LogView.DrawLogPanel | src/bin/gnostr-time.rs:186-192 | The log panel shows the last `min(height - 2, len)` lines of the chunk, one cell in from its top-left corner. |

## Left out

- The terminal backend, `Terminal::draw`, the percentage layout of `draw`, the
  tab bar, the bordered block and its title, and styles. These are library
  rendering calls. Only `set_string` is modelled, as a write record.
- `get_weeble`, `get_blockheight` and `get_wobble` are not part of this model.
  Their results are inputs, and a failed fetch (the `.unwrap()` panic) is not
  modelled.
- The title fetches inside `draw` and the redraws between the three blocks of
  the loop. A redraw only reads the history, which `Render` covers.
- `TuiLogger::init`, the logger's dispatch, and the `Arc<Mutex<...>>` around the
  history. In the model, `info!` calls `WriteLine` directly, and there is no
  concurrency.
- The endless `loop`. One pass is modelled (`Tick`), not non-termination.
- Dashboard.Dashboard.Tick: requires `i < i32::MAX`. It does not model the
  wrap-around of `i += 1` in a release build after 2^31 - 1 ticks.
- LogView.Render: requires the last row written to fit in `u16`. It does not
  model the wrap-around of `area.top() + y` in a release build, nor what the
  buffer does with rows outside its area.
