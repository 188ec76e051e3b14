/**
 * The two commands of the program: `Add`, which adds the value of a shared
 * addend cell to a shared accumulator cell and can take the addition back and
 * replay it, and `DollarGiver`, whose three actions only print.
 *
 * A command is a value. Cloning it (what `clone_box` does for a boxed command)
 * is a plain copy: the copy has its own `addendCopy` but refers to the same two
 * cells. The pure functions `Executed`, `Undone` and `Redone` say what each
 * action does to the accumulator; the methods `Execute`, `Undo` and `Redo`
 * perform it on the heap cells and are proved against those functions.
 */
module Commands {
  import opened Wrappers

  /** The fatal precondition failures (each is an `expect` in the program). */
  datatype Violation =
    | UndoBeforeExecute
    | RedoBeforeExecute
    | UnclickBeforeClick
    | ReclickBeforeUnclick

  /** The panic message of each failure. */
  function Message(v: Violation): string {
    match v
    case UndoBeforeExecute => "Undo should not be called before execute"
    case RedoBeforeExecute => "Redo should not be called before execute"
    case UnclickBeforeClick => "You shouldn't unclick before clicking!"
    case ReclickBeforeUnclick => "You shouldn't reclick before unclicking!"
  }

  /** Each failure has its own message, so the panic text tells which precondition was violated. */
  lemma MessagesDistinct(v: Violation, w: Violation)
    ensures Message(v) == Message(w) ==> v == w
  {
  }

  /** A shared, mutable integer (`Rc<RefCell<i32>>`). */
  class Cell {
    var value: int

    constructor (v: int)
      ensures value == v
    {
      value := v;
    }
  }

  /**
   * `Add` refers to the accumulator cell (`augent`) and the addend cell, and
   * remembers in `addendCopy` the addend its last execute used.
   */
  datatype Command =
    | Add(augend: Cell, addend: Cell, addendCopy: Option<int>)
    | DollarGiver

  /** The amount a command adds on redo and takes away on undo; 0 if none is recorded. */
  function Recorded(c: Command): int {
    if c.Add? && c.addendCopy.Some? then c.addendCopy.value else 0
  }

  /** `d` is a clone of `c`, up to its own record: same variant, same cells. */
  predicate SameConfig(c: Command, d: Command) {
    match c
    case Add(acc, add, _) => d.Add? && d.augend == acc && d.addend == add
    case DollarGiver => d.DollarGiver?
  }

  /** An `Add` whose accumulator and addend are the same cell: a write to one is a write to the other. */
  predicate SharedCell(c: Command) {
    c.Add? && c.augend == c.addend
  }

  /** A command that has been executed at least once, so undo and redo cannot fail. */
  predicate IsExecuted(c: Command) {
    c.Add? ==> c.addendCopy.Some?
  }

  /**
   * Execute, given the accumulator value `acc` and the live addend value
   * `live` it reads: the command afterwards and the new accumulator.
   */
  function Executed(c: Command, acc: int, live: int): (r: (Command, int))
    ensures SameConfig(c, r.0) && IsExecuted(r.0)
    ensures c.Add? ==> Recorded(r.0) == live
    ensures r.1 == acc + Recorded(r.0)
    ensures Undone(r.0, r.1) == Success(acc)
  {
    match c
    case Add(accCell, addCell, _) => (Add(accCell, addCell, Some(live)), acc + live)
    case DollarGiver => (c, acc)
  }

  /** Undo from accumulator value `acc`: the new accumulator, or the panic. */
  function Undone(c: Command, acc: int): (r: Result<int, Violation>)
    ensures r.Failure? <==> !IsExecuted(c)
    ensures r.Failure? ==> r.error == UndoBeforeExecute
    ensures r.Success? ==> r.value == acc - Recorded(c)
  {
    match c
    case Add(_, _, copy) =>
      if copy.None? then Failure(UndoBeforeExecute) else Success(acc - copy.value)
    case DollarGiver => Success(acc)
  }

  /** Redo from accumulator value `acc`: the new accumulator, or the panic. */
  function Redone(c: Command, acc: int): (r: Result<int, Violation>)
    ensures r.Failure? <==> !IsExecuted(c)
    ensures r.Failure? ==> r.error == RedoBeforeExecute
    ensures r.Success? ==> r.value == acc + Recorded(c)
  {
    match c
    case Add(_, _, copy) =>
      if copy.None? then Failure(RedoBeforeExecute) else Success(acc + copy.value)
    case DollarGiver => Success(acc)
  }

  /** Execute then undo restores the accumulator; a further redo yields what execute alone did. */
  lemma ExecuteUndoRedo(c: Command, acc: int, live: int)
    ensures var (d, sum) := Executed(c, acc, live);
      Undone(d, sum) == Success(acc) && Redone(d, acc) == Success(sum)
  {
  }

  /**
   * Redo adds the addend recorded at execute time: whatever the accumulator
   * and the addend cell hold by then, redo adds `live`.
   */
  lemma RedoUsesRecordedAddend(c: Command, acc: int, live: int, later: int)
    requires c.Add?
    ensures Redone(Executed(c, acc, live).0, later) == Success(later + live)
  {
  }

  /** Redo does not consume the record, so it can be repeated, adding the same amount each time. */
  lemma RedoRepeats(c: Command, acc: int)
    requires IsExecuted(c)
    ensures Redone(c, acc).Success?
    ensures Redone(c, Redone(c, acc).value) == Success(acc + 2 * Recorded(c))
  {
  }

  /** `DollarGiver` changes nothing: all three actions leave the accumulator and the command as they were. */
  lemma DollarGiverIsIdentity(acc: int, live: int)
    ensures Executed(DollarGiver, acc, live) == (DollarGiver, acc)
    ensures Undone(DollarGiver, acc) == Success(acc)
    ensures Redone(DollarGiver, acc) == Success(acc)
  {
  }

  /** The cells an action of `c` writes. */
  function Written(c: Command): set<object> {
    if c.Add? then {c.augend} else {}
  }

  /** The cells an action of `c` reads. */
  function Read(c: Command): set<object> {
    if c.Add? then {c.augend, c.addend} else {}
  }

  /** The accumulator value `c` sees (0 for a command without cells). */
  function AccOf(c: Command): int
    reads Written(c)
  {
    if c.Add? then c.augend.value else 0
  }

  /** The live addend value `c` sees (0 for a command without cells). */
  function LiveOf(c: Command): int
    reads Read(c)
  {
    if c.Add? then c.addend.value else 0
  }

  /**
   * `execute`: read the accumulator and the addend cell, write their sum to
   * the accumulator, record the addend. Returns the command with its new record.
   */
  method Execute(c: Command) returns (r: Command)
    modifies Written(c)
    ensures (r, AccOf(c)) == Executed(c, old(AccOf(c)), old(LiveOf(c)))
    ensures c.Add? && c.addend != c.augend ==> c.addend.value == old(c.addend.value)
  {
    match c
    case Add(accCell, addCell, _) =>
      var augend := accCell.value;
      var addend := addCell.value;
      var sum := augend + addend;
      accCell.value := sum;
      r := Add(accCell, addCell, Some(addend));
    case DollarGiver =>
      r := c;
  }

  /** `undo`: subtract the recorded addend from the accumulator; the record is kept. */
  method Undo(c: Command)
    requires IsExecuted(c)
    modifies Written(c)
    ensures Undone(c, old(AccOf(c))) == Success(AccOf(c))
  {
    match c
    case Add(accCell, _, copy) =>
      var subtrahend := accCell.value;
      var minuend := copy.value;
      accCell.value := subtrahend - minuend;
    case DollarGiver =>
  }

  /** `redo`: add the recorded addend (not the live one) to the accumulator again. */
  method Redo(c: Command)
    requires IsExecuted(c)
    modifies Written(c)
    ensures Redone(c, old(AccOf(c))) == Success(AccOf(c))
  {
    match c
    case Add(accCell, _, copy) =>
      var augend := accCell.value;
      var addend := copy.value;
      accCell.value := augend + addend;
    case DollarGiver =>
  }
}
