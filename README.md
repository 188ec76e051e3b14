# Command pattern with undo/redo history — Dafny model

This project models `src/main.rs` of a small Rust program that implements the
Command design pattern:

- `Add` adds the value of a shared addend cell to a shared accumulator cell
  (`augent`), records the addend it used in `addend_copy`, and can undo the
  addition (subtract the recorded addend) and redo it (add the recorded addend
  again, not the live one).
- `DollarGiver` is stateless; its three actions only print.
- `SimpleButton` is an invoker with a template command and two LIFO stacks:
  `click` clones the template, executes the clone and pushes it onto `prev`;
  `unclick` pops `prev`, undoes the entry and pushes it onto `next`; `reclick`
  pops `next`, redoes the entry and pushes it onto `prev`.
- `main` runs a fixed demonstration sequence.

## Layout

- `wrappers.dfy` — `Option` and `Result`.
- `commands.dfy` (module `Commands`) — the shared cell as a class `Cell`; a
  command as the datatype `Command = Add(augend, addend, addendCopy) | DollarGiver`
  whose `Add` holds references to the two cells, so cloning is a value copy that
  keeps sharing the cells; the meaning of each action on values (`Executed`,
  `Undone`, `Redone`, where an `expect` becomes a `Failure(Violation)`); the heap
  methods `Execute`, `Undo`, `Redo` that write through the cell and are proved
  against those functions (there the `expect` becomes a `requires`).
- `buttons.dfy` (module `Buttons`) — one press on values (`Clicked`,
  `Unclicked`, `Reclicked` over `History(template, prev, next)`), `Run` over any
  sequence of presses and writes to the addend cell, the invariant lemmas, and
  the class `SimpleButton` with `const template` and `seq` fields `prev`/`next`,
  whose methods are proved against the press functions.
- `demo.dfy` (module `Demo`) — `Scenario`, the sequence of `main`.

Arithmetic is on unbounded `int` (see "Left out"). An `Add` whose accumulator
and addend are the same cell is allowed: every action reads both values before
it writes, as the Rust code does, and the heap methods' contracts hold in that
case too. The value-level `Machine` keeps the two cell values apart, so in that
case it treats a write to the addend cell as a write to the accumulator
(`Buttons.Step`), and the balance lemmas then cover only runs without such
writes.

Facts of the program the model follows:

- `main` runs execute, undo and redo on the `Add` directly before it builds the
  button, so the button starts from accumulator 5. The clicks then give 8, 12
  and 13, the unclicks 12 and 8, and the reclick 12.
- Redo panics with "Redo should not be called before execute".
- `redo` needs only a recorded addend, not a prior undo.

## Model

| member | source | states |
|---|---|---|
| `Commands.Cell.constructor` | src/main.rs:112-113 | a new shared cell holds the given value |
| `Commands.Message` | src/main.rs:46-105 | the panic text of each `expect`: lines 46, 54, 98 and 105 |
| `Commands.MessagesDistinct` | src/main.rs:46-105 | the four `expect` texts differ, so each panic names the precondition it guards |
| `Commands.Executed` | src/main.rs:35-42 | execute keeps the command's cells (a clone's configuration), records the live addend, adds it to the accumulator, and leaves a command whose undo gives back the old accumulator |
| `Commands.Undone` | src/main.rs:44-50 | undo fails with "Undo should not be called before execute" exactly when an `Add` has no recorded addend; otherwise it subtracts the recorded addend |
| `Commands.Redone` | src/main.rs:52-58 | redo fails exactly when an `Add` has no recorded addend; otherwise it adds the recorded addend, not the live one |
| `Commands.ExecuteUndoRedo` | src/main.rs:35-58 | from any accumulator `a` and addend `b`: execute then undo restores `a`; a further redo gives `a + b`, as execute alone did |
| `Commands.RedoUsesRecordedAddend` | src/main.rs:52-58 | after execute with live addend `b`, redo adds `b` whatever the accumulator and the addend cell hold later |
| `Commands.RedoRepeats` | src/main.rs:52-58 | redo does not consume the record: redo twice adds the recorded addend twice (that undo keeps the entry with its record is `Buttons.Unclicked`'s move of it onto `next`) |
| `Commands.DollarGiverIsIdentity` | src/main.rs:61-74 | `DollarGiver`'s execute, undo and redo never fail and change neither the accumulator nor the command |
| `Commands.Execute` | src/main.rs:35-42 | writes accumulator + addend into the accumulator cell, returns the command with the addend recorded, leaves a distinct addend cell unchanged |
| `Commands.Undo` | src/main.rs:44-50 | requires a recorded addend; writes the accumulator minus it into the accumulator cell |
| `Commands.Redo` | src/main.rs:52-58 | requires a recorded addend; writes the accumulator plus it into the accumulator cell |
| `Buttons.Clicked` | src/main.rs:89-94 | click leaves the template and `next` as they were, grows `prev` by one, the new top is an executed clone of the template that records the live addend, and the accumulator grows by that addend |
| `Buttons.Unclicked` | src/main.rs:96-101 | unclick fails with "You shouldn't unclick before clicking!" on an empty `prev`; otherwise it moves the top of `prev` onto `next` untouched below, keeps the combined length of `prev` and `next`, and subtracts that entry's recorded addend |
| `Buttons.Reclicked` | src/main.rs:103-108 | reclick fails with "You shouldn't reclick before unclicking!" on an empty `next`; otherwise it moves the top of `next` onto `prev`, keeps the combined length of `prev` and `next`, and adds that entry's recorded addend |
| `Buttons.PressFailsOnlyOnEmptyStack` | src/main.rs:96-108 | for stacks of executed clones, unclick fails if and only if `prev` is empty, and reclick if and only if `next` is empty |
| `Buttons.UnclickUndoesClick` | src/main.rs:89-101 | unclick right after click restores the accumulator and `prev` and leaves the new entry on `next` |
| `Buttons.ReclickUndoesUnclick` | src/main.rs:96-108 | reclick right after unclick restores both stacks and the accumulator |
| `Buttons.Step` | src/main.rs:89-108 | one press, or one write to the addend cell (src/main.rs:135,137): the template never changes, a click never fails, and an addend write changes only the value the next execute reads, and the accumulator as well only when it is the same cell |
| `Buttons.Run` | src/main.rs:89-108 | a sequence of steps, stopping at the first failure; the template never changes |
| `Buttons.SharedCellWrite` | src/main.rs:35-42 | with accumulator and addend in one cell at 5, writing 7 to it and clicking leaves 14 and records 7 |
| `Buttons.StepKeepsBalance` | src/main.rs:89-108 | one press keeps the accumulator equal to its start plus the recorded addends on `prev`, and so does an addend write when the addend cell is not the accumulator cell |
| `Buttons.RunKeepsBalance` | src/main.rs:89-108 | after any sequence of presses and addend writes (with no addend write when the addend cell is the accumulator cell), the accumulator is its start plus the recorded addends on `prev`, and every entry is an executed clone |
| `Buttons.RunFromEmpty` | src/main.rs:89-108 | from empty stacks, the accumulator after any run (with no addend write when the addend cell is the accumulator cell) is the initial value plus the recorded addends on `prev` |
| `Buttons.RunCountsEntries` | src/main.rs:89-108 | every click adds one entry to `prev` and `next` taken together; unclick and reclick only move entries |
| `Buttons.RunFailsOnlyOnEmptyStack` | src/main.rs:96-108 | through the button the command-level panics never happen: a run fails only by unclicking an empty `prev` or reclicking an empty `next` |
| `Buttons.SimpleButton.constructor` | src/main.rs:128-132 | a button starts with the given template and empty stacks |
| `Buttons.SimpleButton.Click` | src/main.rs:89-94 | the new stacks and accumulator are what `Clicked` gives from the old ones and the live addend; the template's own record is untouched |
| `Buttons.SimpleButton.Unclick` | src/main.rs:96-101 | requires a non-empty `prev`; the new stacks and accumulator are what `Unclicked` gives |
| `Buttons.SimpleButton.Reclick` | src/main.rs:103-108 | requires a non-empty `next`; the new stacks and accumulator are what `Reclicked` gives, using the entry's recorded addend |
| `Demo.PressesOfScenario` | src/main.rs:134-141 | the six presses of the demonstration, on values: accumulator 8, 12, 13, 12, 8, 12 and the stack contents after each |
| `Demo.Scenario` | src/main.rs:111-141 | the accumulator after each of the twelve actions is 5, 2, 5, 5, 5, 5, 8, 12, 13, 12, 8, 12; at the end `prev` records [3, 4] and `next` records [1] |

## Left out

- All `println!` output (src/main.rs:39,48,56,66,69,72,90,97,104): it has no effect on state. So the button's trace line, printed before the empty-stack check, is not modelled.
- The `Command` and `Button` traits and the `CommandClone`/`clone_box`/`Box<dyn Command>` machinery (src/main.rs:4-25,76-80): replaced by the closed datatype `Command`, whose value copy is the clone, and by the single class `SimpleButton`.
- Run-time borrow checking of `RefCell`: all borrows in the program are sequential, so a plain mutable field is used.
- Buttons.RunKeepsBalance, Buttons.RunFromEmpty: when the template's accumulator and addend are one cell, a write to the addend cell changes the accumulator from outside the button, so the balance is not claimed for runs with such writes.
- Commands.Execute, Commands.Undo, Commands.Redo, Buttons.SimpleButton.Click, Buttons.SimpleButton.Unclick, Buttons.SimpleButton.Reclick: `i32` overflow (a panic in debug builds, wrap-around in release builds) is not modelled; arithmetic is on unbounded integers.
- The panics of `expect` are `requires` clauses on the heap methods and `Failure` results of the value-level functions; process termination itself is not modelled.
