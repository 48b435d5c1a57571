# icode editor core, modelled in Dafny

A model of the core of a small modal terminal text editor written in Rust:

- the **modal cursor state machine** of `src/editor.rs`. An `Editor` holds a cursor `(cx, cy)` of two `u16` values and a mode, Normal or Insert. Each key goes to the Normal-mode or the Insert-mode handler according to the mode.
  - In Normal mode, `q` quits. The arrow keys and `h`/`j`/`k`/`l` move the cursor with saturating arithmetic. `i` enters Insert mode.
  - In Insert mode, a character advances the column and Enter goes to the start of the next row. Backspace moves the column back, and Esc returns to Normal mode.
  - The Insert-mode edits use the plain `+=`/`-=` operators. In a debug build they panic when a `u16` overflows or underflows.
- the **status-line text** computed by `draw_status_line`:
  - the mode label;
  - the left-aligned file field, padded with spaces on the right, whose width `t_column - 13 - 8` underflows on terminals narrower than 21 cells;
  - the `" cx:cy "` position label.
- the **line splitting** of `Buffer::from_file` (`src/buffer.rs`), which cuts the file's text into lines with Rust's `str::lines`.

## Layout

| file | module | contents |
|---|---|---|
| `wrappers.dfy` | `Wrappers` | `Option` |
| `u16.dfy` | `U16Arith` | `u16`, `saturating_add`/`saturating_sub`, and debug-build `+`/`-` as `CheckedAdd`/`CheckedSub` (`None` is the panic) |
| `strings.dfy` | `Strings` | `IndexOf` and `Count` over strings |
| `fmt.dfy` | `Fmt` | `Display` for integers (`Decimal`) and its inverse, `{:<width$}` padding, ASCII `to_uppercase` |
| `buffer.dfy` | `Buffer` | `str::lines` as `Lines`, its inverse `Unlines`, and their lemmas |
| `editor.dfy` | `Editor` | `Mode`, `Key`, `Outcome`, the cursor transition functions, the status-line labels, and `class Editor` with one method per handler |
| `editor_lemmas.dfy` | `EditorLemmas` | properties of single keys and of key sequences |
| `status_line_lemmas.dfy` | `StatusLineLemmas` | reading the position label back |

Each handler is two things:
- a pure function on `Cursor` values: `NormalTransition`, `InsertTransition`, and the dispatcher `Transition`;
- a method of `class Editor` that updates `cx`, `cy` and `mode` in place, as the Rust methods do, and is proved equal to that function.

A handled key yields a `Step`: the new cursor and an `Outcome`.
- `Continue`: the editor keeps running.
- `Quit`: the `process::exit(0)` of the `q` key.
- `Fault`: an arithmetic panic.

On a `Fault` the cursor is left as it was when the panic happened. Enter assigns `cx = 0` before `cy += 1` overflows, so a faulting Enter has `cx = 0`.

`Run` feeds a sequence of keys through `Transition` and stops at the first `Quit` or `Fault`. It composes the key handlers only. The event loop also redraws the screen before each key, and that redraw is not part of `Run` (see "## Left out").

Edges of the code's arithmetic that the model keeps as written:
- Normal-mode moves saturate at 0 and at 65535. The Insert-mode `+= 1` at 65535 panics (`Fault`).
- Backspace at column 0 underflows and panics (`Fault`). A clamp at 0 was evidently intended.
- The file field's width is the terminal width minus the file label's length (13) and the mode label's length (8). The evident intent is a status line that fills the row. But:
  - below 21 columns the subtraction underflows (`DrawStatusLine` returns `None`);
  - from 34 columns up, the line is `t_column - 13 + |position|` cells wide. That fills the row only when both coordinates have five digits (`Editor.Editor.DrawStatusLine`).

`str::lines` is modelled as the Rust standard library documents it:
- split at every `'\n'`;
- a `'\r'` right before that `'\n'` goes with it;
- a `'\r'` elsewhere, including at the very end of the text, is ordinary text;
- a final line ending does not open an empty line.

## Model

| member | source | states |
|---|---|---|
| `U16Arith.SaturatingAdd` | src/editor.rs:120 | the result is the sum when it fits in a `u16`, otherwise 65535, and never below the first operand |
| `U16Arith.SaturatingSub` | src/editor.rs:116 | the result is the difference when it is not negative, otherwise 0, and never above the first operand |
| `U16Arith.CheckedAdd` | src/editor.rs:145 | `+` on `u16` panics (None) exactly when the sum exceeds 65535, and otherwise gives the sum |
| `U16Arith.CheckedSub` | src/editor.rs:154 | `-` on `u16` panics (None) exactly when the subtrahend is larger, and otherwise gives the difference |
| `Editor.NormalTransition` | src/editor.rs:112-139 | in Normal mode only `q` quits, no key panics, only `i` changes the mode (to Insert), and at most one coordinate moves, by at most one |
| `Editor.InsertTransition` | src/editor.rs:141-166 | in Insert mode nothing quits, only Esc changes the mode (to Normal), only Enter changes the row (by +1), and other keys move the column by at most one |
| `Editor.Transition` | src/editor.rs:168-174 | the key goes to the Normal handler in Normal mode and to the Insert handler in Insert mode |
| `Editor.Editor.constructor` | src/editor.rs:33-41 | a new editor keeps the loaded lines and starts at `(0, 0)` in Normal mode |
| `Editor.Editor.HandleNormalEvent` | src/editor.rs:112-139 | updating the fields in place gives exactly the state and outcome of `NormalTransition`; the lines are untouched |
| `Editor.Editor.HandleInsertEvent` | src/editor.rs:141-166 | updating the fields in place gives exactly the state and outcome of `InsertTransition`; the lines are untouched |
| `Editor.Editor.HandleKeyboardEvent` | src/editor.rs:168-174 | the method runs the handler of the mode it finds, so it matches `Transition` |
| `Editor.Editor.DrawStatusLine` | src/editor.rs:63-88 | panics (None) exactly below 21 columns; otherwise gives the mode label, then the file label padded with spaces to `max(13, t_column - 21)`, then the position label; from 34 columns the line is at most the terminal width and equals it exactly when both coordinates are at least 10000 |
| `Editor.Run` | src/editor.rs:196-199 | keys are handled in order until the first Quit or Fault; a Quit needs a `q` among the keys, and a Fault needs a character, Enter or Backspace among them |
| `Fmt.ToUpper` | src/editor.rs:66 | `to_uppercase` keeps the length and turns each lower-case ASCII letter into its capital, leaving other characters alone |
| `Editor.ModeLabel` | src/editor.rs:66 | the mode label is `" NORMAL "` or `" INSERT "`, 8 characters |
| `Editor.PositionLabel` | src/editor.rs:69 | the position label is between 5 and 13 characters long |
| `Editor.FileFieldWidth` | src/editor.rs:67 | the `usize` subtraction panics exactly when the terminal is narrower than the two labels, and otherwise leaves the width that, with the labels, makes up the terminal width |
| `Fmt.Decimal` | src/editor.rs:69 | `Display` of an integer is a non-empty run of digits that starts with `0` only for zero |
| `Fmt.DecimalRoundTrip` | src/editor.rs:69 | the digits read back as the number written |
| `Fmt.DecimalLength` | src/editor.rs:69 | a number has at most `k` digits exactly when it is below `10^k` |
| `Fmt.PadRight` | src/editor.rs:88 | `{:<width$}` keeps the text whole at the front and fills with spaces up to the width, never truncating |
| `StatusLineLemmas.PositionLabelRoundTrip` | src/editor.rs:69 | the position label parses back to the cursor it shows |
| `StatusLineLemmas.PositionLabelInjective` | src/editor.rs:69 | two different cursors never show the same position label |
| `EditorLemmas.ModeChangesOnlyOnSwitchKeys` | src/editor.rs:131-135 | the mode changes exactly on `i` in Normal mode and on Esc in Insert mode |
| `EditorLemmas.SwitchKeysKeepPosition` | src/editor.rs:158-162 | neither mode switch moves the cursor or stops the editor |
| `EditorLemmas.QuitOnlyInNormal` | src/editor.rs:114 | a key quits exactly when it is `q` in Normal mode |
| `EditorLemmas.InsertQIsCharacter` | src/editor.rs:143-147 | in Insert mode `q` advances the column like any other character |
| `EditorLemmas.FaultsExactlyOnUncheckedEdges` | src/editor.rs:143-154 | a key panics exactly when it is, in Insert mode, a character at column 65535, Enter on row 65535 or Backspace at column 0 |
| `EditorLemmas.NormalMoves` | src/editor.rs:115-130 | each Normal-mode move changes one coordinate by one in its direction, or keeps it at the edge 0 or 65535, and changes nothing else |
| `EditorLemmas.LeftAtOrigin` | src/editor.rs:123-126 | Left at `(0, 0)` stays at `(0, 0)` |
| `EditorLemmas.InsertEdits` | src/editor.rs:143-155 | without overflow, a character advances the column, Enter goes to column 0 of the next row and Backspace moves the column back, in Insert mode |
| `EditorLemmas.UnlistedKeysChangeNothing` | src/editor.rs:137 | a key with no entry in the current mode's table changes nothing and does not stop the editor |
| `EditorLemmas.RunConcat` | src/editor.rs:196-199 | running two key sequences in turn is running their concatenation, stopping where the first stops |
| `EditorLemmas.InsertThenEscape` | src/editor.rs:131-162 | `i` then Esc returns to Normal mode at the same position |
| `EditorLemmas.OppositeMovesCancel` | src/editor.rs:115-130 | away from the edges, Right then Left, Left then Right, Down then Up and Up then Down each return to the start |
| `EditorLemmas.BackspaceUndoesCharacter` | src/editor.rs:143-155 | in Insert mode, Backspace after a character that did not overflow returns to the start |
| `EditorLemmas.RepeatedLeft` | src/editor.rs:123-126 | `n` presses of Left give column `max(0, cx - n)` |
| `EditorLemmas.RepeatedRight` | src/editor.rs:127-130 | `n` presses of Right give column `min(65535, cx + n)` |
| `EditorLemmas.RepeatedUp` | src/editor.rs:115-118 | `n` presses of Up give row `max(0, cy - n)` |
| `EditorLemmas.RepeatedDown` | src/editor.rs:119-122 | `n` presses of Down give row `min(65535, cy + n)` |
| `EditorLemmas.TypingAdvancesColumn` | src/editor.rs:143-147 | typing a word in Insert mode advances the column by its length, or panics at column 65535 when the word does not fit |
| `EditorLemmas.RepeatedBackspace` | src/editor.rs:153-154 | `n` Backspaces in Insert mode move `n` columns left, or panic at column 0 when `n > cx` |
| `EditorLemmas.NormalModeNeverFaults` | src/editor.rs:112-139 | without `i`, any key sequence leaves the editor in Normal mode and never panics |
| `Buffer.StripCr` | src/buffer.rs:16 | a trailing `'\r'` is removed from a line, and nothing else is |
| `Buffer.Lines` | src/buffer.rs:16 | empty text, and only empty text, has no lines |
| `Buffer.Unlines` | src/buffer.rs:16 | writing lines back out gives empty text for no lines and text ending in `'\n'` otherwise |
| `Buffer.LinesFirst` | src/buffer.rs:16 | the first line is the text up to the first `'\n'`, minus a `'\r'` right before it, followed by the lines of the rest, in order |
| `Buffer.CrLfIsOneEnding` | src/buffer.rs:16 | a line ending in `"\r\n"` loses both characters |
| `Buffer.LastLineVerbatim` | src/buffer.rs:16 | text without `'\n'` is one line, kept whole, including a trailing bare `'\r'` |
| `Buffer.NoNewlineInLines` | src/buffer.rs:16 | no line contains `'\n'` |
| `Buffer.LineCount` | src/buffer.rs:16 | the line count is the number of `'\n'`, plus one when the text is non-empty and does not end in `'\n'` |
| `Buffer.FinalEndingAddsNoLine` | src/buffer.rs:16 | a final `'\n'` after a non-empty last line adds no empty line |
| `Buffer.FinalCrLfAddsNoLine` | src/buffer.rs:16 | a final `"\r\n"` after a non-empty last line adds no empty line either |
| `Buffer.LinesOfUnlines` | src/buffer.rs:16 | lines without `'\n'` and without a trailing `'\r'`, written out one per line, split back into the same lines |
| `Buffer.UnlinesOfLines` | src/buffer.rs:16 | text without `'\r'`, split and written back out, is the text again, with a `'\n'` added exactly when it was non-empty and did not end in one |
| `Buffer.TwoLines` | src/buffer.rs:16 | two lines joined by one `'\n'`, such as `"hello\nworld"`, split into exactly those two lines, in order |

## Left out

- `src/main.rs` (argument handling, the panic when the file cannot be opened) is not part of this model. It is process glue.
- Opening and reading the file in `Buffer::from_file` is OS I/O. `Lines` starts from the text that was read. The `Buffer` struct is never built by the program and is not modelled.
- The `File` handle and `Stdout` fields of `Editor` are not modelled. `Editor` keeps only the lines, which no operation changes.
- All terminal output is not modelled: `move_cursor`, `draw_buffer`, `Clear`, `MoveTo`, `Print`/`PrintStyledContent`, colours and attributes, and the `println!`/`print!` echoes in the handlers. The status-line text is modelled; the row arithmetic of `draw_buffer` is not (next line).
- Editor.Run: does not include the redraw before each key, so it does not capture two panics of that redraw. First, `draw_buffer` moves to row `cy + i` for line `i` with an unchecked `u16` add (src/editor.rs:53). With two or more lines loaded, that add panics once `cy + i > 65535`, for example after Down has saturated `cy` at 65535; `Run` continues from such states. Second, `draw_status_line` panics on every frame on a terminal narrower than 21 columns, so the loop cannot run there at all; `Run` does not depend on the terminal width.
- The terminal-size query and its error path are left out. The terminal width is a parameter of `DrawStatusLine`.
- Editor.Editor.DrawStatusLine: does not model the row it writes on or the cursor move after writing, because these are terminal output.
- `event::read`, the endless `run` loop, raw mode, the alternate screen and the window title are left out as I/O. `Run` composes the handlers over a finite key sequence instead.
- The recursive `handle_event` call after a mode switch is left out. It renders and reads the next key, which the model treats as the next step of `Run`. The recursion nests (src/editor.rs:135, src/editor.rs:162). Each `i` or Esc adds one call to the stack, and the stack unwinds only after a key that is not a mode switch. A long enough run of alternating `i` and Esc therefore grows the stack without limit, which `Run` does not capture.
- `process::exit(0)` is the outcome `Quit`, not the end of a process.
- Release builds are not modelled. There the Insert-mode arithmetic wraps around, and the underflowed status width would make the padding enormous. The model follows the debug build, where each of these panics (`Fault`, or `None` from `DrawStatusLine`).
- `to_uppercase` is modelled on ASCII only. The labels it is applied to are ASCII.
- `Key.Other` stands for all key codes the handlers do not name (Tab, Delete, Home, function keys, ...). None of the handlers tell them apart.
