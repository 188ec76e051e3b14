/**
 * `SimpleButton`, the invoker: a template command and two stacks of clones,
 * `prev` (executed, most recent last) and `next` (undone, most recent last).
 *
 * `History` and the functions `Clicked`, `Unclicked` and `Reclicked` give the
 * meaning of one press on values; `Run` applies a whole sequence of presses
 * and writes to the addend cell, which is what the lemmas about the
 * bookkeeping quantify over. The class `SimpleButton` performs the presses on
 * the heap and is proved against the functions.
 */
module Buttons {
  import opened Wrappers
  import opened Commands

  datatype History = History(template: Command, prev: seq<Command>, next: seq<Command>)

  /** Every entry on either stack is an executed clone of the template. */
  predicate WellFormed(h: History) {
    && (forall e :: e in h.prev ==> SameConfig(h.template, e) && IsExecuted(e))
    && (forall e :: e in h.next ==> SameConfig(h.template, e) && IsExecuted(e))
  }

  function Last(s: seq<Command>): Command
    requires s != []
  {
    s[|s| - 1]
  }

  /** The sum of the amounts recorded by the entries of a stack. */
  function Total(s: seq<Command>): int {
    if s == [] then 0 else Total(s[..|s| - 1]) + Recorded(Last(s))
  }

  lemma TotalPush(s: seq<Command>, e: Command)
    ensures Total(s + [e]) == Total(s) + Recorded(e)
  {
    assert (s + [e])[..|s|] == s;
  }

  /**
   * `click` from accumulator `acc` with live addend `live`: a clone of the
   * template is executed and pushed onto `prev`; `next` is not cleared.
   */
  function Clicked(h: History, acc: int, live: int): (r: (History, int))
    ensures r.0.template == h.template && r.0.next == h.next
    ensures |r.0.prev| == |h.prev| + 1 && r.0.prev[..|h.prev|] == h.prev
    ensures SameConfig(h.template, Last(r.0.prev)) && IsExecuted(Last(r.0.prev))
    ensures h.template.Add? ==> Recorded(Last(r.0.prev)) == live
    ensures r.1 == acc + Recorded(Last(r.0.prev))
    ensures WellFormed(h) ==> WellFormed(r.0)
  {
    var (entry, sum) := Executed(h.template, acc, live);
    assert (h.prev + [entry])[..|h.prev|] == h.prev;
    (h.(prev := h.prev + [entry]), sum)
  }

  /**
   * `unclick` from accumulator `acc`: the top of `prev` is undone and moved
   * to the top of `next`; fails on an empty `prev`.
   */
  function Unclicked(h: History, acc: int): (r: Result<(History, int), Violation>)
    ensures h.prev == [] ==> r == Failure(UnclickBeforeClick)
    ensures h.prev != [] ==> (r.Failure? <==> !IsExecuted(Last(h.prev)))
    ensures r.Success? ==>
      && h.prev != []
      && var (h', acc') := r.value;
      && h'.template == h.template
      && h'.prev == h.prev[..|h.prev| - 1]
      && h'.next == h.next + [Last(h.prev)]
      && |h'.prev| + |h'.next| == |h.prev| + |h.next|
      && acc' == acc - Recorded(Last(h.prev))
    ensures r.Success? && WellFormed(h) ==> WellFormed(r.value.0)
  {
    if h.prev == [] then Failure(UnclickBeforeClick)
    else
      var entry := Last(h.prev);
      match Undone(entry, acc)
      case Failure(v) => Failure(v)
      case Success(difference) =>
        Success((History(h.template, h.prev[..|h.prev| - 1], h.next + [entry]), difference))
  }

  /**
   * `reclick` from accumulator `acc`: the top of `next` is redone with its own
   * recorded addend and moved to the top of `prev`; fails on an empty `next`.
   */
  function Reclicked(h: History, acc: int): (r: Result<(History, int), Violation>)
    ensures h.next == [] ==> r == Failure(ReclickBeforeUnclick)
    ensures h.next != [] ==> (r.Failure? <==> !IsExecuted(Last(h.next)))
    ensures r.Success? ==>
      && h.next != []
      && var (h', acc') := r.value;
      && h'.template == h.template
      && h'.next == h.next[..|h.next| - 1]
      && h'.prev == h.prev + [Last(h.next)]
      && |h'.prev| + |h'.next| == |h.prev| + |h.next|
      && acc' == acc + Recorded(Last(h.next))
    ensures r.Success? && WellFormed(h) ==> WellFormed(r.value.0)
  {
    if h.next == [] then Failure(ReclickBeforeUnclick)
    else
      var entry := Last(h.next);
      match Redone(entry, acc)
      case Failure(v) => Failure(v)
      case Success(sum) =>
        Success((History(h.template, h.prev + [entry], h.next[..|h.next| - 1]), sum))
  }

  /** On a well-formed history the only failures are the two empty-stack ones. */
  lemma PressFailsOnlyOnEmptyStack(h: History, acc: int)
    requires WellFormed(h)
    ensures Unclicked(h, acc).Failure? <==> h.prev == []
    ensures Reclicked(h, acc).Failure? <==> h.next == []
  {
  }

  /** Unclick right after click restores the accumulator and `prev`, leaving the entry on `next`. */
  lemma UnclickUndoesClick(h: History, acc: int, live: int)
    ensures var (h1, acc1) := Clicked(h, acc, live);
      Unclicked(h1, acc1) == Success((h.(next := h.next + [Last(h1.prev)]), acc))
  {
  }

  /** Reclick right after unclick restores the whole state: both stacks and the accumulator. */
  lemma ReclickUndoesUnclick(h: History, acc: int)
    requires WellFormed(h) && h.prev != []
    ensures Unclicked(h, acc).Success?
    ensures var (h1, acc1) := Unclicked(h, acc).value;
      Reclicked(h1, acc1) == Success((h, acc))
  {
    var (h1, acc1) := Unclicked(h, acc).value;
    assert h1.prev + [Last(h.prev)] == h.prev;
  }

  /** One thing that can happen between two states of the program: a press, or a write to the addend cell. */
  datatype Op = ClickOp | UnclickOp | ReclickOp | SetAddend(value: int)

  /**
   * The button's history, the accumulator value and the addend cell's value.
   * When the template's accumulator and addend are one cell, `acc` is that
   * cell's value and `live` is not used.
   */
  datatype Machine = Machine(history: History, acc: int, live: int)

  /** The value an execute reads from the addend cell. */
  function LiveSeen(m: Machine): int {
    if SharedCell(m.history.template) then m.acc else m.live
  }

  /** One press, or one write to the addend cell (which, if it is also the accumulator, overwrites that). */
  function Step(m: Machine, op: Op): (r: Result<Machine, Violation>)
    ensures r.Success? ==> r.value.history.template == m.history.template
    ensures op.ClickOp? ==> r.Success?
    ensures op.SetAddend? ==>
      && r.Success?
      && r.value.history == m.history
      && LiveSeen(r.value) == op.value
      && (!SharedCell(m.history.template) ==> r.value.acc == m.acc)
  {
    match op
    case ClickOp =>
      var (h, acc) := Clicked(m.history, m.acc, LiveSeen(m));
      Success(Machine(h, acc, m.live))
    case UnclickOp =>
      (match Unclicked(m.history, m.acc)
       case Failure(v) => Failure(v)
       case Success(s) => Success(Machine(s.0, s.1, m.live)))
    case ReclickOp =>
      (match Reclicked(m.history, m.acc)
       case Failure(v) => Failure(v)
       case Success(s) => Success(Machine(s.0, s.1, m.live)))
    case SetAddend(v) =>
      if SharedCell(m.history.template) then Success(m.(acc := v, live := v))
      else Success(m.(live := v))
  }

  /** Apply `ops` in order, stopping at the first failure. The template never changes. */
  function Run(m: Machine, ops: seq<Op>): (r: Result<Machine, Violation>)
    ensures r.Success? ==> r.value.history.template == m.history.template
    decreases |ops|
  {
    if ops == [] then Success(m)
    else
      match Step(m, ops[0])
      case Failure(v) => Failure(v)
      case Success(m') => Run(m', ops[1..])
  }

  function Clicks(ops: seq<Op>): nat
    decreases |ops|
  {
    if ops == [] then 0 else (if ops[0].ClickOp? then 1 else 0) + Clicks(ops[1..])
  }

  predicate NoAddendWrites(ops: seq<Op>) {
    forall i :: 0 <= i < |ops| ==> !ops[i].SetAddend?
  }

  /** With the accumulator and addend in one cell, an addend write sets the accumulator too. */
  lemma SharedCellWrite(x: Cell)
    ensures var m := Machine(History(Add(x, x, None), [], []), 5, 5);
      var r := Run(m, [SetAddend(7), ClickOp]);
      r.Success? && r.value.acc == 14 && Records(r.value.history.prev) == [7]
  {
  }

  /** The recorded addends of a stack, bottom first. */
  function Records(s: seq<Command>): seq<int> {
    seq(|s|, i requires 0 <= i < |s| => Recorded(s[i]))
  }

  /**
   * The accumulator equals its starting value `base` plus the amounts
   * recorded by the entries on `prev`, and every entry is an executed clone.
   */
  predicate Balanced(m: Machine, base: int) {
    WellFormed(m.history) && m.acc == base + Total(m.history.prev)
  }

  /**
   * Every press keeps the balance, and so does an addend write unless the
   * addend cell is the accumulator cell.
   */
  lemma StepKeepsBalance(m: Machine, op: Op, base: int)
    requires Balanced(m, base)
    requires SharedCell(m.history.template) ==> !op.SetAddend?
    ensures Step(m, op).Success? ==> Balanced(Step(m, op).value, base)
  {
    match op
    case ClickOp =>
      var (entry, _) := Executed(m.history.template, m.acc, LiveSeen(m));
      TotalPush(m.history.prev, entry);
    case UnclickOp =>
    case ReclickOp =>
      if m.history.next != [] {
        TotalPush(m.history.prev, Last(m.history.next));
      }
    case SetAddend(_) =>
  }

  /**
   * Whatever sequence of presses and addend writes runs, the accumulator
   * stays its starting value plus the recorded addends of `prev`: undone
   * entries contribute nothing, and a later change of the addend cell never
   * alters what an entry already on a stack adds or takes away. When the
   * addend cell is the accumulator cell, an addend write is a write to the
   * accumulator, so the balance is kept only by runs without such writes.
   */
  lemma {:induction false} RunKeepsBalance(m: Machine, ops: seq<Op>, base: int)
    requires Balanced(m, base)
    requires SharedCell(m.history.template) ==> NoAddendWrites(ops)
    ensures Run(m, ops).Success? ==> Balanced(Run(m, ops).value, base)
    decreases |ops|
  {
    if ops != [] {
      StepKeepsBalance(m, ops[0], base);
      if Step(m, ops[0]).Success? {
        RunKeepsBalance(Step(m, ops[0]).value, ops[1..], base);
      }
    }
  }

  /** From an empty start, the accumulator is the initial value plus the recorded addends of `prev`. */
  lemma RunFromEmpty(template: Command, acc: int, live: int, ops: seq<Op>)
    requires SharedCell(template) ==> NoAddendWrites(ops)
    ensures var r := Run(Machine(History(template, [], []), acc, live), ops);
      r.Success? ==> r.value.acc == acc + Total(r.value.history.prev)
  {
    RunKeepsBalance(Machine(History(template, [], []), acc, live), ops, acc);
  }

  /** Each click adds one entry to the two stacks together; unclick and reclick only move entries. */
  lemma {:induction false} RunCountsEntries(m: Machine, ops: seq<Op>)
    ensures var r := Run(m, ops);
      r.Success? ==>
        |r.value.history.prev| + |r.value.history.next|
          == |m.history.prev| + |m.history.next| + Clicks(ops)
    decreases |ops|
  {
    if ops != [] {
      if Step(m, ops[0]).Success? {
        RunCountsEntries(Step(m, ops[0]).value, ops[1..]);
      }
    }
  }

  /**
   * Entries on the stacks have always been executed, so through the button
   * the command-level failures never happen: a run fails only by unclicking
   * an empty `prev` or reclicking an empty `next`.
   */
  lemma {:induction false} RunFailsOnlyOnEmptyStack(m: Machine, ops: seq<Op>)
    requires WellFormed(m.history)
    ensures var r := Run(m, ops);
      r.Failure? ==> r.error == UnclickBeforeClick || r.error == ReclickBeforeUnclick
    decreases |ops|
  {
    if ops != [] {
      PressFailsOnlyOnEmptyStack(m.history, m.acc);
      if Step(m, ops[0]).Success? {
        RunFailsOnlyOnEmptyStack(Step(m, ops[0]).value, ops[1..]);
      }
    }
  }

  /** The invoker. Its template is never reassigned, so it is a constant. */
  class SimpleButton {
    const template: Command
    var prev: seq<Command>
    var next: seq<Command>

    ghost predicate Valid()
      reads this
    {
      WellFormed(State())
    }

    function State(): History
      reads this
    {
      History(template, prev, next)
    }

    /** The accumulator value the template (and so every entry) sees. */
    function Acc(): int
      reads Written(template)
    {
      AccOf(template)
    }

    /** The live addend value the template sees. */
    function Live(): int
      reads Read(template)
    {
      LiveOf(template)
    }

    constructor (command: Command)
      ensures template == command && prev == [] && next == []
      ensures Valid()
    {
      template := command;
      prev := [];
      next := [];
    }

    /** `click`: clone the template, execute the clone, push it onto `prev`. */
    method Click()
      requires Valid()
      modifies this`prev, Written(template)
      ensures Valid()
      ensures (State(), Acc()) == Clicked(old(State()), old(Acc()), old(Live()))
    {
      var command := template;
      command := Execute(command);
      prev := prev + [command];
    }

    /** `unclick`: pop `prev`, undo that entry, push it onto `next`. */
    method Unclick()
      requires Valid()
      requires prev != []
      modifies this`prev, this`next, Written(template)
      ensures Valid()
      ensures Unclicked(old(State()), old(Acc())) == Success((State(), Acc()))
    {
      var command := prev[|prev| - 1];
      assert command in prev;
      prev := prev[..|prev| - 1];
      Undo(command);
      next := next + [command];
    }

    /** `reclick`: pop `next`, redo that entry, push it onto `prev`. */
    method Reclick()
      requires Valid()
      requires next != []
      modifies this`prev, this`next, Written(template)
      ensures Valid()
      ensures Reclicked(old(State()), old(Acc())) == Success((State(), Acc()))
    {
      var command := next[|next| - 1];
      assert command in next;
      next := next[..|next| - 1];
      Redo(command);
      prev := prev + [command];
    }
  }
}
