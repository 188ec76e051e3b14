/** The demonstration sequence of the program's entry point. */
module Demo {
  import opened Wrappers
  import opened Commands
  import opened Buttons

  /** What the six presses of the scenario do, on values: `t` is the template, `e3`, `e4`, `e1` the entries. */
  lemma PressesOfScenario(t: Command, e3: Command, e4: Command, e1: Command)
    requires t.Add? && t.addendCopy == Some(3)
    requires e3 == t && e4 == t.(addendCopy := Some(4)) && e1 == t.(addendCopy := Some(1))
    ensures Clicked(History(t, [], []), 5, 3) == (History(t, [e3], []), 8)
    ensures Clicked(History(t, [e3], []), 8, 4) == (History(t, [e3, e4], []), 12)
    ensures Clicked(History(t, [e3, e4], []), 12, 1) == (History(t, [e3, e4, e1], []), 13)
    ensures Unclicked(History(t, [e3, e4, e1], []), 13) == Success((History(t, [e3, e4], [e1]), 12))
    ensures Unclicked(History(t, [e3, e4], [e1]), 12) == Success((History(t, [e3], [e1, e4]), 8))
    ensures Reclicked(History(t, [e3], [e1, e4]), 8) == Success((History(t, [e3, e4], [e1]), 12))
    ensures Records([e3, e4]) == [3, 4] && Records([e1]) == [1]
  {
    assert [e3] + [e4] == [e3, e4];
    assert [e3, e4] + [e1] == [e3, e4, e1];
    assert [e3, e4, e1][..2] == [e3, e4];
    assert [e3, e4][..1] == [e3];
    assert [] + [e1] == [e1];
    assert [e1] + [e4] == [e1, e4];
    assert [e1, e4][..1] == [e1];
  }

  /**
   * The accumulator starts at 2 and the addend cell at 3. An `Add` is
   * executed, undone and redone directly, a `DollarGiver` likewise, and then
   * the `Add` becomes the template of a button that is clicked with the addend
   * cell at 3, 4 and 1, then unclicked twice and reclicked once. `trace` is
   * the accumulator after each of those twelve actions.
   */
  method Scenario() returns (trace: seq<int>, prevRecords: seq<int>, nextRecords: seq<int>)
    ensures trace == [5, 2, 5, 5, 5, 5, 8, 12, 13, 12, 8, 12]
    ensures prevRecords == [3, 4] && nextRecords == [1]
  {
    var x := new Cell(2);
    var y := new Cell(3);
    var addition := Add(x, y, None);
    addition := Execute(addition);
    assert addition == Add(x, y, Some(3)) && x.value == 5;
    var a1 := x.value;
    Undo(addition);
    var a2 := x.value;
    Redo(addition);
    var a3 := x.value;

    var dollarGiver := DollarGiver;
    dollarGiver := Execute(dollarGiver);
    var a4 := x.value;
    Undo(dollarGiver);
    var a5 := x.value;
    Redo(dollarGiver);
    var a6 := x.value;

    assert x.value == 5 && y.value == 3;

    var button := new SimpleButton(addition);
    var three, four, one := Add(x, y, Some(3)), Add(x, y, Some(4)), Add(x, y, Some(1));
    PressesOfScenario(addition, three, four, one);
    assert button.Acc() == 5 && button.Live() == 3;
    button.Click();
    assert button.State() == History(addition, [three], []) && x.value == 8;
    var a7 := x.value;
    y.value := 4;
    assert button.Acc() == 8 && button.Live() == 4;
    button.Click();
    assert button.State() == History(addition, [three, four], []) && x.value == 12;
    var a8 := x.value;
    y.value := 1;
    assert button.Acc() == 12 && button.Live() == 1;
    button.Click();
    assert button.State() == History(addition, [three, four, one], []) && x.value == 13;
    var a9 := x.value;
    button.Unclick();
    assert button.State() == History(addition, [three, four], [one]) && x.value == 12;
    var a10 := x.value;
    button.Unclick();
    assert button.State() == History(addition, [three], [one, four]) && x.value == 8;
    var a11 := x.value;
    button.Reclick();
    assert button.State() == History(addition, [three, four], [one]) && x.value == 12;
    var a12 := x.value;

    trace := [a1, a2, a3, a4, a5, a6, a7, a8, a9, a10, a11, a12];
    prevRecords := Records(button.prev);
    nextRecords := Records(button.next);
  }
}
