/** The input handling of the `project` revision (project/src/tipcalc.c):
    the step size of a held button, the up/down handlers that pass a signed
    step to the focused field's editor, and the select/back handlers that
    move the focus over the four input fields. */
module ProjectTipcalc {
  import opened CArith
  import opened ProjectCalculator

  const ButtonHoldRepeatMs := 100
  const NumInputFields := 4

  /** `get_click_accelerated_delta`: the step of one repeat tick of a held
      button, given how many ticks have fired. Up to 5 s of holding every
      tick steps by 1; up to 10 s every third tick steps by 10; after that
      every fifth tick steps by 100; the ticks in between step by 0. */
  function AcceleratedDelta(numClicks: int): (delta: int)
    ensures delta in {0, 1, 10, 100}
    ensures delta == 1 <==> numClicks <= 50
    ensures 50 < numClicks <= 100 ==> (delta == 10 <==> numClicks % 3 == 0) && delta != 100
    ensures numClicks > 100 ==> (delta == 100 <==> numClicks % 5 == 0) && delta != 10
  {
    var ms := numClicks * ButtonHoldRepeatMs;
    if ms <= 5000 then 1
    else if 5000 < ms && ms <= 10000 && Rem(numClicks, 3) == 0 then 10
    else if 10000 < ms && Rem(numClicks, 5) == 0 then 100
    else 0
  }

  /** The sum of the steps that ticks 1..n of one hold pass to
      `manipulate`. It is not the field's change: each step goes through
      `Wrapped`, which can jump to the other end of the range. Tick n is
      taken to report n clicks; the host's count is 8-bit, so past tick 255
      this no longer describes the handler. */
  function HeldTotal(n: nat): int {
    if n == 0 then 0 else HeldTotal(n - 1) + AcceleratedDelta(n)
  }

  /** During the first 50 ticks of a hold every tick adds 1. */
  lemma {:induction false} HeldTotalFirstBand(n: nat)
    requires n <= 50
    ensures HeldTotal(n) == n
  {
    if n > 0 {
      HeldTotalFirstBand(n - 1);
    }
  }

  /** From tick 51 to tick 100 every third tick adds 10. */
  lemma {:induction false} HeldTotalSecondBand(n: nat)
    requires 50 <= n <= 100
    ensures HeldTotal(n) == 50 + 10 * (n / 3 - 16)
  {
    if n == 50 {
      HeldTotalFirstBand(50);
    } else {
      HeldTotalSecondBand(n - 1);
      assert n / 3 == (n - 1) / 3 + (if n % 3 == 0 then 1 else 0);
    }
  }

  /** After tick 100 every fifth tick adds 100. */
  lemma {:induction false} HeldTotalThirdBand(n: nat)
    requires 100 <= n
    ensures HeldTotal(n) == 220 + 100 * (n / 5 - 20)
  {
    if n == 100 {
      HeldTotalSecondBand(100);
    } else {
      HeldTotalThirdBand(n - 1);
      assert n / 5 == (n - 1) / 5 + (if n % 5 == 0 then 1 else 0);
    }
  }

  /** The step a click of the up button passes on: 1 for a single press,
      the accelerated step while the button is held. The down button passes
      the negation. */
  function ClickDelta(repeating: bool, numClicks: int): (delta: int)
    ensures delta in {0, 1, 10, 100}
    ensures delta == 1 <==> !repeating || numClicks <= 50
  {
    if repeating then AcceleratedDelta(numClicks) else 1
  }

  /** The four editable fields and the `is_selected` flags of the
      `input_fields` array: bill dollars, bill cents, tip percentage and
      number of people splitting, in that order. */
  class InputPanel {
    var currentInputIdx: int
    const isSelected: array<bool>
    const engine: Calculator

    /** The focus is one of the four fields and exactly that field is
        selected. */
    ghost predicate Valid()
      reads this, isSelected
    {
      && isSelected.Length == NumInputFields
      && 0 <= currentInputIdx < NumInputFields
      && forall i :: 0 <= i < NumInputFields ==> isSelected[i] == (i == currentInputIdx)
    }

    /** The window as loaded: bill dollars is the only field created
        selected, and the focus starts there. */
    constructor (engine: Calculator)
      ensures Valid() && fresh(isSelected)
      ensures currentInputIdx == 0 && this.engine == engine
    {
      currentInputIdx := 0;
      isSelected := new bool[NumInputFields] [true, false, false, false];
      this.engine := engine;
    }

    /** The edit the focused field's `manipulate` callback makes with
        `delta`: only the focused input changes, by the wrap-around rule;
        the tip and split editors recompute the totals, the bill editors
        leave them as they were. */
    twostate predicate FocusedFieldEdited(delta: int)
      reads this, engine
    {
      && engine.bill.dollars == (if currentInputIdx == 0
                               then Wrapped(old(engine.bill.dollars), delta, MinBillDollars, MaxBillDollars)
                               else old(engine.bill.dollars))
      && engine.bill.cents == (if currentInputIdx == 1 then Wrapped(old(engine.bill.cents), delta, 0, 99)
                             else old(engine.bill.cents))
      && engine.tipPercent == (if currentInputIdx == 2
                             then Wrapped(old(engine.tipPercent), delta, MinTipPercent, MaxTipPercent)
                             else old(engine.tipPercent))
      && engine.numSplitting == (if currentInputIdx == 3
                               then Wrapped(old(engine.numSplitting), delta, MinNumSplitting, MaxNumSplitting)
                               else old(engine.numSplitting))
      && (currentInputIdx < 2 ==>
            engine.tip == old(engine.tip) && engine.total == old(engine.total) && engine.totalPerPerson == old(engine.totalPerPerson))
      && (currentInputIdx >= 2 ==> engine.TotalsCurrent())
    }

    /** `input_field->manipulate(delta)` on the focused field. */
    method Manipulate(delta: int)
      requires Valid()
      requires currentInputIdx == 2 ==> engine.numSplitting != 0
      modifies engine
      ensures FocusedFieldEdited(delta)
      ensures old(engine.InRange()) ==> engine.InRange()
    {
      if currentInputIdx == 0 {
        engine.ManipBillDollars(delta);
      } else if currentInputIdx == 1 {
        engine.ManipBillCents(delta);
      } else if currentInputIdx == 2 {
        engine.ManipTipPercent(delta);
      } else {
        engine.ManipNumSplitting(delta);
      }
    }

    /** `up_click_handler`: step the focused field up by one, or by the
        accelerated step while the button is held. */
    method UpClick(repeating: bool, numClicks: int)
      requires Valid()
      requires currentInputIdx == 2 ==> engine.numSplitting != 0
      modifies engine
      ensures FocusedFieldEdited(ClickDelta(repeating, numClicks))
      ensures old(engine.InRange()) ==> engine.InRange()
    {
      var delta;
      if repeating {
        delta := AcceleratedDelta(numClicks);
      } else {
        delta := 1;
      }
      Manipulate(delta);
    }

    /** `down_click_handler`: the same with the step negated. */
    method DownClick(repeating: bool, numClicks: int)
      requires Valid()
      requires currentInputIdx == 2 ==> engine.numSplitting != 0
      modifies engine
      ensures FocusedFieldEdited(-ClickDelta(repeating, numClicks))
      ensures old(engine.InRange()) ==> engine.InRange()
    {
      var delta;
      if repeating {
        delta := -1 * AcceleratedDelta(numClicks);
      } else {
        delta := -1;
      }
      Manipulate(delta);
    }

    /** `select_click_handler`: below the last field, move the focus and the
        selection one field on and recompute the totals; on the last field,
        do nothing. */
    method SelectClick()
      requires Valid()
      requires currentInputIdx < NumInputFields - 1 ==> engine.numSplitting != 0
      modifies this, isSelected, engine
      ensures Valid()
      ensures old(currentInputIdx) < NumInputFields - 1 ==>
                currentInputIdx == old(currentInputIdx) + 1 && engine.TotalsCurrent()
      ensures old(currentInputIdx) == NumInputFields - 1 ==>
                currentInputIdx == old(currentInputIdx) && unchanged(engine) && unchanged(isSelected)
      ensures engine.bill == old(engine.bill) && engine.tipPercent == old(engine.tipPercent)
      ensures engine.numSplitting == old(engine.numSplitting)
    {
      if currentInputIdx < NumInputFields - 1 {
        isSelected[currentInputIdx] := false;
        currentInputIdx := currentInputIdx + 1;
        isSelected[currentInputIdx] := true;
        engine.UpdateTotals();
      }
    }

    /** `back_click_handler`: above the first field, move the focus and the
        selection one field back; on the first field, leave the window
        (`exit`). The totals are recomputed either way. */
    method BackClick() returns (exit: bool)
      requires Valid()
      requires engine.numSplitting != 0
      modifies this, isSelected, engine
      ensures Valid()
      ensures exit <==> old(currentInputIdx) == 0
      ensures currentInputIdx == if exit then old(currentInputIdx) else old(currentInputIdx) - 1
      ensures exit ==> unchanged(isSelected)
      ensures engine.bill == old(engine.bill) && engine.tipPercent == old(engine.tipPercent)
      ensures engine.numSplitting == old(engine.numSplitting)
      ensures engine.TotalsCurrent()
    {
      if currentInputIdx > 0 {
        isSelected[currentInputIdx] := false;
        currentInputIdx := currentInputIdx - 1;
        isSelected[currentInputIdx] := true;
        exit := false;
      } else {
        exit := true;
      }
      engine.UpdateTotals();
    }
  }

  /** A bill edit leaves the totals stale until the focus moves: after the
      dollars are stepped, a select click brings tip, total and share back
      in line with the new bill. */
  method EditDollarsThenSelect(panel: InputPanel, repeating: bool, numClicks: int)
    requires panel.Valid() && panel.currentInputIdx == 0
    requires panel.engine.InRange() && panel.engine.TotalsCurrent()
    modifies panel, panel.isSelected, panel.engine
    ensures panel.Valid() && panel.currentInputIdx == 1
    ensures panel.engine.bill.dollars
         == Wrapped(old(panel.engine.bill.dollars), ClickDelta(repeating, numClicks), MinBillDollars, MaxBillDollars)
    ensures panel.engine.InRange() && panel.engine.TotalsCurrent()
  {
    panel.UpClick(repeating, numClicks);
    panel.SelectClick();
  }
}
