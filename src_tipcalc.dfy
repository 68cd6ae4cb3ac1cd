/** The input handling of the `src` revision (src/tipcalc.c): the up and
    down buttons step the focused field by exactly one, held or not, and
    the select and back buttons move the focus over the four input fields
    without touching the engine. */
module SrcTipcalc {
  import opened Currency
  import opened Persist
  import opened SrcCalculator

  const NumInputFields := 4

  /** The four editable fields and their `is_selected` flags, in the order of
      `input_fields`: bill dollars, bill cents, tip percentage and number of
      people splitting. */
  class InputPanel {
    var currentInputIdx: int
    const isSelected: array<bool>
    const engine: Calculator

    /** The focus is one of the four fields and exactly that field is
        selected. */
    ghost predicate Valid()
      reads this, isSelected
    {
      && isSelected.Length == NumInputFields
      && 0 <= currentInputIdx < NumInputFields
      && forall i :: 0 <= i < NumInputFields ==> isSelected[i] == (i == currentInputIdx)
    }

    /** The window as loaded: bill dollars is the only field created
        selected, and the focus starts there. */
    constructor (engine: Calculator)
      ensures Valid() && fresh(isSelected)
      ensures currentInputIdx == 0 && this.engine == engine
    {
      currentInputIdx := 0;
      isSelected := new bool[NumInputFields] [true, false, false, false];
      this.engine := engine;
    }

    /** The focused field's `inc_value` (`up`) or `dec_value` callback has
        run: that one input took one wrapping step, the others kept their
        values, and the totals were recomputed. */
    twostate predicate FocusedFieldStepped(up: bool)
      reads this, engine
    {
      && engine.bill.dollars == (if currentInputIdx != 0 then old(engine.bill.dollars)
                               else if up then Incremented(old(engine.bill.dollars), MinBillDollars, MaxBillDollars)
                               else Decremented(old(engine.bill.dollars), MinBillDollars, MaxBillDollars))
      && engine.bill.cents == (if currentInputIdx != 1 then old(engine.bill.cents)
                             else if up then Incremented(old(engine.bill.cents), 0, 99)
                             else Decremented(old(engine.bill.cents), 0, 99))
      && engine.tipPercent == (if currentInputIdx != 2 then old(engine.tipPercent)
                             else if up then Incremented(old(engine.tipPercent), MinTipPercent, MaxTipPercent)
                             else Decremented(old(engine.tipPercent), MinTipPercent, MaxTipPercent))
      && engine.numSplitting == (if currentInputIdx != 3 then old(engine.numSplitting)
                               else if up then Incremented(old(engine.numSplitting), MinNumSplitting, MaxNumSplitting)
                               else Decremented(old(engine.numSplitting), MinNumSplitting, MaxNumSplitting))
      && engine.TotalsCurrent()
    }

    /** `up_click_handler`: every tick, single or repeated, steps the
        focused field up by one. */
    method UpClick()
      requires Valid()
      requires currentInputIdx < 3 ==> engine.numSplitting != 0
      requires currentInputIdx == 3 ==> engine.numSplitting != -1
      modifies engine
      ensures FocusedFieldStepped(true)
      ensures old(engine.InRange()) ==> engine.InRange()
    {
      if currentInputIdx == 0 {
        engine.IncBillDollars();
      } else if currentInputIdx == 1 {
        engine.IncBillCents();
      } else if currentInputIdx == 2 {
        engine.IncTipPercent();
      } else {
        engine.IncNumSplitting();
      }
    }

    /** `down_click_handler`: every tick steps the focused field down by
        one. */
    method DownClick()
      requires Valid()
      requires currentInputIdx < 3 ==> engine.numSplitting != 0
      modifies engine
      ensures FocusedFieldStepped(false)
      ensures old(engine.InRange()) ==> engine.InRange()
    {
      if currentInputIdx == 0 {
        engine.DecBillDollars();
      } else if currentInputIdx == 1 {
        engine.DecBillCents();
      } else if currentInputIdx == 2 {
        engine.DecTipPercent();
      } else {
        engine.DecNumSplitting();
      }
    }

    /** `select_click_handler`: below the last field, move the focus and the
        selection one field on; on the last field, do nothing. */
    method SelectClick()
      requires Valid()
      modifies this, isSelected
      ensures Valid()
      ensures currentInputIdx == if old(currentInputIdx) < NumInputFields - 1 then old(currentInputIdx) + 1
                                 else old(currentInputIdx)
      ensures old(currentInputIdx) == NumInputFields - 1 ==> unchanged(isSelected)
    {
      if currentInputIdx < NumInputFields - 1 {
        isSelected[currentInputIdx] := false;
        currentInputIdx := currentInputIdx + 1;
        isSelected[currentInputIdx] := true;
      }
    }

    /** `back_click_handler`: above the first field, move the focus and the
        selection one field back; on the first field, leave the window
        (`exit`). */
    method BackClick() returns (exit: bool)
      requires Valid()
      modifies this, isSelected
      ensures Valid()
      ensures exit <==> old(currentInputIdx) == 0
      ensures currentInputIdx == if exit then old(currentInputIdx) else old(currentInputIdx) - 1
      ensures exit ==> unchanged(isSelected)
    {
      if currentInputIdx > 0 {
        isSelected[currentInputIdx] := false;
        currentInputIdx := currentInputIdx - 1;
        isSelected[currentInputIdx] := true;
        exit := false;
      } else {
        exit := true;
      }
    }
  }

  /** `init` followed by `main_window_load`: read the saved inputs and open
      the window with the focus on the bill dollars. The derived amounts are
      not computed at launch, so until the first edit they are $0.00. */
  method Launch(store: Store) returns (panel: InputPanel)
    ensures panel.Valid() && panel.currentInputIdx == 0 && fresh(panel.engine)
    ensures panel.engine.tip == panel.engine.total == panel.engine.totalPerPerson == CurrencyAmount(0, 0)
    ensures KeyBill !in store ==> panel.engine.InRange() && !panel.engine.TotalsCurrent()
  {
    var engine := new Calculator();
    engine.PersistRead(store);
    panel := new InputPanel(engine);
  }

  /** Up then down on the same field gives back the input it started from,
      with the totals current for it. */
  method UpThenDown(panel: InputPanel)
    requires panel.Valid() && panel.engine.InRange()
    modifies panel.engine
    ensures panel.engine.bill == old(panel.engine.bill)
    ensures panel.engine.tipPercent == old(panel.engine.tipPercent)
    ensures panel.engine.numSplitting == old(panel.engine.numSplitting)
    ensures panel.engine.InRange() && panel.engine.TotalsCurrent()
  {
    ghost var bill0, tip0, n0 := panel.engine.bill, panel.engine.tipPercent, panel.engine.numSplitting;
    panel.UpClick();
    panel.DownClick();
    StepsUndoEachOther(bill0.dollars, MinBillDollars, MaxBillDollars);
    StepsUndoEachOther(bill0.cents, 0, 99);
    StepsUndoEachOther(tip0, MinTipPercent, MaxTipPercent);
    StepsUndoEachOther(n0, MinNumSplitting, MaxNumSplitting);
  }
}
