/** The calculation engine of the `project` revision (project/src/calculator.c):
    one process-wide state made of the bill, the tip percentage and the
    number of people splitting, plus the derived tip, total and per-person
    amounts. Derived amounts are computed in whole cents, rounding exact
    halves up. Edits take a signed delta and wrap around at the ends of
    each field's range. */
module ProjectCalculator {
  import opened CArith
  import opened Currency
  import opened Text
  import opened Persist

  const MinBillDollars := 1
  const MinTipPercent := 1
  const MinNumSplitting := 1
  const MaxBillDollars := 999
  const MaxTipPercent := 40
  const MaxNumSplitting := 9
  const DefaultTipPercent := 15
  const DefaultNumSplitting := 1
  const DefaultBill := CurrencyAmount(10, 0)
  const PersistVersion := 1
  const KeyVersion := 100
  const KeyBill := 200
  const KeyTipPercent := 300

  /** `r` is num/den rounded to the nearest integer, exact halves upward:
      the error num - r*den lies in [-den/2, den/2). */
  predicate RoundsHalfUp(num: int, den: int, r: int) {
    -den <= 2 * (num - r * den) < den
  }

  /** For a positive denominator exactly one integer rounds num/den half up,
      so `RoundsHalfUp` is a complete specification of the rounding. */
  lemma RoundsHalfUpUnique(num: int, den: int, r1: int, r2: int)
    requires den >= 1
    requires RoundsHalfUp(num, den, r1) && RoundsHalfUp(num, den, r2)
    ensures r1 == r2
  {
    assert (r2 - r1) * den == r2 * den - r1 * den;
    assert (r1 - r2) * den == r1 * den - r2 * den;
    BelowOneFactor(r2 - r1, den);
    BelowOneFactor(r1 - r2, den);
  }

  /** `divide_and_round`: add half the divisor, then divide (C division). */
  function DivideAndRound(dividend: int, divisor: int): int
    requires divisor != 0
  {
    Quot(dividend + Quot(divisor, 2), divisor)
  }

  /** For the non-negative operands the engine passes it, `divide_and_round`
      rounds the quotient to the nearest integer, exact halves upward. */
  lemma DivideAndRoundIsHalfUp(dividend: int, divisor: int)
    requires dividend >= 0 && divisor >= 1
    ensures var r := DivideAndRound(dividend, divisor);
      && r >= 0
      && r * divisor <= dividend + divisor / 2 < (r + 1) * divisor
      && RoundsHalfUp(dividend, divisor, r)
  {
    var r := DivideAndRound(dividend, divisor);
    assert r == (dividend + divisor / 2) / divisor;
  }

  /** The three derived amounts. */
  datatype Totals = Totals(tip: CurrencyAmount, total: CurrencyAmount, perPerson: CurrencyAmount)

  /** What `calc_update_totals` computes from the three inputs. The total is
      the bill plus the tip, to the cent. */
  function ComputeTotals(bill: CurrencyAmount, tipPercent: int, numSplitting: int): (t: Totals)
    requires numSplitting != 0
    ensures InCents(t.total) == InCents(bill) + InCents(t.tip)
  {
    var billInCents := InCents(bill);
    var tipInCents := DivideAndRound(billInCents * tipPercent, 100);
    var totalInCents := billInCents + tipInCents;
    Totals(FromCents(tipInCents), FromCents(totalInCents), FromCents(DivideAndRound(totalInCents, numSplitting)))
  }

  /** For a non-negative bill and tip percentage: the tip is the bill times
      the percentage over 100, rounded half up; the share is the total over
      the number of people, rounded half up; every amount has its cents in
      [0,99]. */
  lemma ComputeTotalsRounding(bill: CurrencyAmount, tipPercent: int, numSplitting: int)
    requires InCents(bill) >= 0 && tipPercent >= 0 && numSplitting >= 1
    ensures var t := ComputeTotals(bill, tipPercent, numSplitting);
      && RoundsHalfUp(InCents(bill) * tipPercent, 100, InCents(t.tip))
      && RoundsHalfUp(InCents(t.total), numSplitting, InCents(t.perPerson))
      && Normal(t.tip) && Normal(t.total) && Normal(t.perPerson)
  {
    var t := ComputeTotals(bill, tipPercent, numSplitting);
    var b := InCents(bill);
    ProductNonNegative(b, tipPercent);
    assert InCents(t.tip) == DivideAndRound(b * tipPercent, 100);
    assert InCents(t.tip) >= 0 && RoundsHalfUp(b * tipPercent, 100, InCents(t.tip)) by {
      DivideAndRoundIsHalfUp(b * tipPercent, 100);
    }
    assert InCents(t.perPerson) == DivideAndRound(InCents(t.total), numSplitting);
    assert InCents(t.perPerson) >= 0 && RoundsHalfUp(InCents(t.total), numSplitting, InCents(t.perPerson)) by {
      DivideAndRoundIsHalfUp(InCents(t.total), numSplitting);
    }
  }

  lemma TipCentsBound(billInCents: int, tipPercent: int)
    requires 0 <= billInCents <= 99999 && 0 <= tipPercent <= 40
    ensures 0 <= DivideAndRound(billInCents * tipPercent, 100) <= 40000
  {
    ProductNonNegative(billInCents, tipPercent);
    ProductAtMost(billInCents, tipPercent, 99999, 40);
    DivideAndRoundIsHalfUp(billInCents * tipPercent, 100);
  }

  lemma ShareCentsBound(totalInCents: int, numSplitting: int)
    requires 0 <= totalInCents && 1 <= numSplitting
    ensures 0 <= DivideAndRound(totalInCents, numSplitting) <= totalInCents
  {
    var r := DivideAndRound(totalInCents, numSplitting);
    DivideAndRoundIsHalfUp(totalInCents, numSplitting);
    AtLeastOneFactor(totalInCents, numSplitting);
    assert (r - totalInCents) * numSplitting == r * numSplitting - totalInCents * numSplitting;
    BelowOneFactor(r - totalInCents, numSplitting);
  }

  /** For inputs in range the derived amounts fit the display: a tip of at
      most $400.00, a total of at most $1399.99, and a share that is never
      more than the total. */
  lemma TotalsInDisplayRange(bill: CurrencyAmount, tipPercent: int, numSplitting: int)
    requires InputsInRange(bill, tipPercent, numSplitting)
    ensures var t := ComputeTotals(bill, tipPercent, numSplitting);
      && Normal(t.tip) && Normal(t.total) && Normal(t.perPerson)
      && InCents(t.tip) <= 40000 && t.tip.dollars <= 400
      && InCents(t.total) <= 139999 && t.total.dollars <= 1399
      && InCents(t.perPerson) <= InCents(t.total) && t.perPerson.dollars <= 1399
  {
    var t := ComputeTotals(bill, tipPercent, numSplitting);
    var b := InCents(bill);
    assert t.tip == FromCents(DivideAndRound(b * tipPercent, 100));
    TipCentsBound(b, tipPercent);
    assert t.perPerson == FromCents(DivideAndRound(InCents(t.total), numSplitting));
    ShareCentsBound(InCents(t.total), numSplitting);
  }

  /** The same bounds in the form the money formatters use: the dollars of
      the tip have at most three digits, those of the total and the share at
      most four. */
  lemma TotalsFitDisplay(bill: CurrencyAmount, tipPercent: int, numSplitting: int, t: Totals)
    ensures InputsInRange(bill, tipPercent, numSplitting) && t == ComputeTotals(bill, tipPercent, numSplitting) ==>
      && Normal(t.tip) && t.tip.dollars <= 400 && |Digits(t.tip.dollars)| <= 3
      && Normal(t.total) && t.total.dollars <= 1399 && |Digits(t.total.dollars)| <= 4
      && Normal(t.perPerson) && t.perPerson.dollars <= 1399 && |Digits(t.perPerson.dollars)| <= 4
  {
    if InputsInRange(bill, tipPercent, numSplitting) && t == ComputeTotals(bill, tipPercent, numSplitting) {
      TotalsInDisplayRange(bill, tipPercent, numSplitting);
      DigitsLength(t.tip.dollars, 3);
      DigitsLength(t.total.dollars, 4);
      DigitsLength(t.perPerson.dollars, 4);
    }
  }

  /** The shared rule of every `calc_manip_*`: add `delta`; past the top of
      [lo,hi] the field jumps to `lo`, below the bottom to `hi`. */
  function Wrapped(v: int, delta: int, lo: int, hi: int): (r: int)
    requires lo <= hi
    ensures lo <= r <= hi
    ensures r == v + delta <==> lo <= v + delta <= hi
    ensures v + delta > hi ==> r == lo
    ensures v + delta < lo ==> r == hi
  {
    if v + delta > hi then lo else if v + delta < lo then hi else v + delta
  }

  /** Adding a whole range's width to an in-range value does not come back
      to it: the field overshoots and lands on its minimum. */
  lemma FullRangeDeltaLandsOnMin(v: int, lo: int, hi: int)
    requires lo <= v <= hi
    ensures Wrapped(v, hi - lo + 1, lo, hi) == lo
    ensures v != lo ==> Wrapped(v, hi - lo + 1, lo, hi) != v
  {
  }

  /** `%d.%02d`: whole dollars, a point, two zero-padded cent digits. */
  predicate IsMoneyText(s: string) {
    |s| >= 4 && s[|s| - 3] == '.' && AllDigits(s[..|s| - 3]) && AllDigits(s[|s| - 2..])
  }

  /** The amount, in cents, that a money text reads as. */
  function MoneyTextCents(s: string): int
    requires IsMoneyText(s)
  {
    100 * DecimalValue(s[..|s| - 3]) + DecimalValue(s[|s| - 2..])
  }

  /** The text `calc_get_tip_txt` and its two siblings put in their 9-byte
      buffers. */
  function MoneyText(a: CurrencyAmount): (r: string)
    ensures |r| <= 8
    ensures Normal(a) && a.dollars < 100000 ==>
              IsMoneyText(r) && MoneyTextCents(r) == InCents(a) && |r| == |Digits(a.dollars)| + 3
  {
    var s := FormatInt(a.dollars, 0, SpacePad) + "." + FormatInt(a.cents, 2, ZeroPad);
    MoneyTextFits(a, s);
    Snprintf(s, 9)
  }

  lemma MoneyTextFits(a: CurrencyAmount, s: string)
    requires s == FormatInt(a.dollars, 0, SpacePad) + "." + FormatInt(a.cents, 2, ZeroPad)
    ensures Normal(a) && a.dollars < 100000 ==>
              |s| < 9 && IsMoneyText(s) && MoneyTextCents(s) == InCents(a) && |s| == |Digits(a.dollars)| + 3
  {
    if Normal(a) && a.dollars < 100000 {
      var d := FormatInt(a.dollars, 0, SpacePad);
      var c := FormatInt(a.cents, 2, ZeroPad);
      FormatPlain(a.dollars);
      FormatTwoDigits(a.cents);
      DigitsLength(a.dollars, 5);
      assert 1 <= |d| <= 5 && AllDigits(d) && DecimalValue(d) == a.dollars;
      assert |c| == 2 && AllDigits(c) && DecimalValue(c) == a.cents;
      MoneyJoin(d, c);
      assert s == d + "." + c;
    }
  }

  /** Digits, a point and two more digits make a money text that reads as
      100 times the first number plus the second. */
  lemma MoneyJoin(d: string, c: string)
    requires 1 <= |d| && AllDigits(d) && |c| == 2 && AllDigits(c)
    ensures var s := d + "." + c;
      && |s| == |d| + 3 && IsMoneyText(s) && MoneyTextCents(s) == 100 * DecimalValue(d) + DecimalValue(c)
  {
    var s := d + "." + c;
    assert s[..|s| - 3] == d;
    assert s[|s| - 2..] == c;
  }

  /** The state of project/src/calculator.c: its six module-level statics. */
  class Calculator {
    var bill: CurrencyAmount
    var tip: CurrencyAmount
    var total: CurrencyAmount
    var totalPerPerson: CurrencyAmount
    var tipPercent: int
    var numSplitting: int

    /** The three editable inputs lie in their ranges. */
    ghost predicate InRange()
      reads this
    {
      InputsInRange(bill, tipPercent, numSplitting)
    }

    /** The derived amounts agree with the current inputs. */
    ghost predicate TotalsCurrent()
      reads this
    {
      numSplitting != 0 && Totals(tip, total, totalPerPerson) == ComputeTotals(bill, tipPercent, numSplitting)
    }

    /** The statics before `calc_persist_read` runs: all zero. */
    constructor ()
      ensures bill == tip == total == totalPerPerson == CurrencyAmount(0, 0)
      ensures tipPercent == 0 && numSplitting == 0
    {
      bill, tip, total, totalPerPerson := CurrencyAmount(0, 0), CurrencyAmount(0, 0), CurrencyAmount(0, 0), CurrencyAmount(0, 0);
      tipPercent, numSplitting := 0, 0;
    }

    /** `calc_update_totals`. Recomputing totals that are already current
        changes nothing. */
    method UpdateTotals()
      requires numSplitting != 0
      modifies this
      ensures bill == old(bill) && tipPercent == old(tipPercent) && numSplitting == old(numSplitting)
      ensures TotalsCurrent()
      ensures old(TotalsCurrent()) ==> unchanged(this)
    {
      var t := ComputeTotals(bill, tipPercent, numSplitting);
      tip, total, totalPerPerson := t.tip, t.total, t.perPerson;
    }

    /** `calc_reset_to_defaults`: $10.00 at 15% for one person, which makes
        the tip $1.50 and the total and share $11.50. */
    method ResetToDefaults()
      modifies this
      ensures bill == DefaultBill && tipPercent == DefaultTipPercent && numSplitting == DefaultNumSplitting
      ensures InRange() && TotalsCurrent()
      ensures tip == CurrencyAmount(1, 50) && total == CurrencyAmount(11, 50) && totalPerPerson == CurrencyAmount(11, 50)
    {
      bill := DefaultBill;
      tipPercent := DefaultTipPercent;
      numSplitting := DefaultNumSplitting;
      UpdateTotals();
    }

    /** `calc_persist_store`: the version, the tip percentage and the bill
        go to their keys; the number of people splitting is not saved. */
    method PersistStore(store: Store) returns (saved: Store)
      ensures saved.Keys == store.Keys + {KeyVersion, KeyTipPercent, KeyBill}
      ensures saved[KeyVersion] == IntValue(PersistVersion)
      ensures saved[KeyTipPercent] == IntValue(tipPercent)
      ensures saved[KeyBill] == BillRecord(bill)
      ensures forall k :: k in store && k !in {KeyVersion, KeyTipPercent, KeyBill} ==> saved[k] == store[k]
    {
      saved := store[KeyVersion := IntValue(PersistVersion)];
      saved := saved[KeyTipPercent := IntValue(tipPercent)];
      saved := saved[KeyBill := BillRecord(bill)];
    }

    /** `calc_persist_read`: with a bill saved, the bill and tip percentage
        come from the store, one person splits, and totals are recomputed;
        with no bill saved, the defaults. Loaded values are not range
        checked, so the inputs are in range afterwards only when the stored
        ones were. */
    method PersistRead(store: Store)
      modifies this
      ensures KeyBill in store ==>
                && bill == ReadBill(store, KeyBill, old(bill))
                && tipPercent == ReadInt(store, KeyTipPercent)
      ensures KeyBill !in store ==> bill == DefaultBill && tipPercent == DefaultTipPercent
      ensures numSplitting == DefaultNumSplitting
      ensures TotalsCurrent()
      ensures SavedInRange(store) ==> InRange()
    {
      if KeyBill in store {
        bill := ReadBill(store, KeyBill, bill);
        tipPercent := ReadInt(store, KeyTipPercent);
        numSplitting := DefaultNumSplitting;
        UpdateTotals();
      } else {
        ResetToDefaults();
      }
    }

    /** `calc_get_bill_dollars_txt`: `%d` in a 4-byte buffer. */
    function BillDollarsText(): (r: string)
      reads this
      ensures |r| <= 3
      ensures InRange() ==> r == Digits(bill.dollars) && DecimalValue(r) == bill.dollars
    {
      DigitsFit(bill.dollars, 3);
      Snprintf(FormatInt(bill.dollars, 0, SpacePad), 4)
    }

    /** `calc_get_bill_cents_txt`: `%02d` in a 3-byte buffer, so always two
        digits. */
    function BillCentsText(): (r: string)
      reads this
      ensures |r| <= 2
      ensures InRange() ==> |r| == 2 && AllDigits(r) && DecimalValue(r) == bill.cents
    {
      DigitsFit(bill.cents, 2);
      Snprintf(FormatInt(bill.cents, 2, ZeroPad), 3)
    }

    /** `calc_get_tip_percent_txt`: `%d` in a 3-byte buffer. */
    function TipPercentText(): (r: string)
      reads this
      ensures |r| <= 2
      ensures InRange() ==> r == Digits(tipPercent) && DecimalValue(r) == tipPercent
    {
      DigitsFit(tipPercent, 2);
      Snprintf(FormatInt(tipPercent, 0, SpacePad), 3)
    }

    /** `calc_get_num_splitting_txt`: `%d` in a 2-byte buffer. */
    function NumSplittingText(): (r: string)
      reads this
      ensures |r| <= 1
      ensures InRange() ==> r == Digits(numSplitting) && DecimalValue(r) == numSplitting
    {
      DigitsFit(numSplitting, 1);
      Snprintf(FormatInt(numSplitting, 0, SpacePad), 2)
    }

    /** `calc_get_tip_txt`. */
    function TipText(): (r: string)
      reads this
      ensures InRange() && TotalsCurrent() ==> IsMoneyText(r) && MoneyTextCents(r) == InCents(tip) && |r| <= 6
    {
      TotalsFitDisplay(bill, tipPercent, numSplitting, Totals(tip, total, totalPerPerson));
      MoneyText(tip)
    }

    /** `calc_get_total_txt`. */
    function TotalText(): (r: string)
      reads this
      ensures InRange() && TotalsCurrent() ==> IsMoneyText(r) && MoneyTextCents(r) == InCents(total) && |r| <= 7
    {
      TotalsFitDisplay(bill, tipPercent, numSplitting, Totals(tip, total, totalPerPerson));
      MoneyText(total)
    }

    /** `calc_get_total_per_person_txt`. */
    function TotalPerPersonText(): (r: string)
      reads this
      ensures InRange() && TotalsCurrent() ==> IsMoneyText(r) && MoneyTextCents(r) == InCents(totalPerPerson) && |r| <= 7
    {
      TotalsFitDisplay(bill, tipPercent, numSplitting, Totals(tip, total, totalPerPerson));
      MoneyText(totalPerPerson)
    }

    /** `calc_manip_bill_dollars`: wraps within [1,999]; touches neither the
        cents nor the derived amounts. */
    method ManipBillDollars(delta: int)
      modifies this`bill
      ensures bill == CurrencyAmount(Wrapped(old(bill.dollars), delta, MinBillDollars, MaxBillDollars), old(bill.cents))
      ensures old(InRange()) ==> InRange()
    {
      if bill.dollars + delta > MaxBillDollars {
        bill := bill.(dollars := MinBillDollars);
      } else if bill.dollars + delta < MinBillDollars {
        bill := bill.(dollars := MaxBillDollars);
      } else {
        bill := bill.(dollars := bill.dollars + delta);
      }
    }

    /** `calc_manip_bill_cents`: wraps within [0,99] without carrying into
        the dollars; does not recompute. */
    method ManipBillCents(delta: int)
      modifies this`bill
      ensures bill == CurrencyAmount(old(bill.dollars), Wrapped(old(bill.cents), delta, 0, 99))
      ensures old(InRange()) ==> InRange()
    {
      if bill.cents + delta > 99 {
        bill := bill.(cents := 0);
      } else if bill.cents + delta < 0 {
        bill := bill.(cents := 99);
      } else {
        bill := bill.(cents := bill.cents + delta);
      }
    }

    /** `calc_manip_tip_percent`: wraps within [1,40], then recomputes. */
    method ManipTipPercent(delta: int)
      requires numSplitting != 0
      modifies this
      ensures tipPercent == Wrapped(old(tipPercent), delta, MinTipPercent, MaxTipPercent)
      ensures bill == old(bill) && numSplitting == old(numSplitting)
      ensures TotalsCurrent()
      ensures old(InRange()) ==> InRange()
    {
      if tipPercent + delta > MaxTipPercent {
        tipPercent := MinTipPercent;
      } else if tipPercent + delta < MinTipPercent {
        tipPercent := MaxTipPercent;
      } else {
        tipPercent := tipPercent + delta;
      }
      UpdateTotals();
    }

    /** `calc_manip_num_splitting`: wraps within [1,9], then recomputes. */
    method ManipNumSplitting(delta: int)
      modifies this
      ensures numSplitting == Wrapped(old(numSplitting), delta, MinNumSplitting, MaxNumSplitting)
      ensures bill == old(bill) && tipPercent == old(tipPercent)
      ensures TotalsCurrent()
      ensures old(InRange()) ==> InRange()
    {
      if numSplitting + delta > MaxNumSplitting {
        numSplitting := MinNumSplitting;
      } else if numSplitting + delta < MinNumSplitting {
        numSplitting := MaxNumSplitting;
      } else {
        numSplitting := numSplitting + delta;
      }
      UpdateTotals();
    }
  }

  /** The three editable inputs lie in their ranges: dollars in [1,999],
      cents in [0,99], tip percentage in [1,40], people in [1,9]. */
  predicate InputsInRange(bill: CurrencyAmount, tipPercent: int, numSplitting: int) {
    && MinBillDollars <= bill.dollars <= MaxBillDollars
    && 0 <= bill.cents <= 99
    && MinTipPercent <= tipPercent <= MaxTipPercent
    && MinNumSplitting <= numSplitting <= MaxNumSplitting
  }

  /** A store whose saved bill and tip percentage, when a bill is saved at
      all, are in range. */
  ghost predicate SavedInRange(store: Store) {
    KeyBill in store ==>
      && store[KeyBill].BillRecord?
      && MinBillDollars <= store[KeyBill].amount.dollars <= MaxBillDollars
      && 0 <= store[KeyBill].amount.cents <= 99
      && MinTipPercent <= ReadInt(store, KeyTipPercent) <= MaxTipPercent
  }

  /** Saving at exit and reading at the next launch gives back the bill and
      the tip percentage, resets the split to one person, and leaves the
      totals current. */
  method SaveThenReload(c: Calculator, store: Store)
    requires c.InRange()
    modifies c
    ensures c.bill == old(c.bill) && c.tipPercent == old(c.tipPercent)
    ensures c.numSplitting == DefaultNumSplitting
    ensures c.InRange() && c.TotalsCurrent()
  {
    var saved := c.PersistStore(store);
    c.PersistRead(saved);
  }

  /** $10.01 at 15%: 150.15 cents of tip round to 150, so the total is $11.51. */
  lemma RoundingEdgeExample()
    ensures ComputeTotals(CurrencyAmount(10, 1), 15, 1)
         == Totals(CurrencyAmount(1, 50), CurrencyAmount(11, 51), CurrencyAmount(11, 51))
  {
    assert InCents(CurrencyAmount(10, 1)) * 15 == 15015;
    assert DivideAndRound(15015, 100) == 150;
    assert DivideAndRound(1151, 1) == 1151;
    assert FromCents(150) == CurrencyAmount(1, 50);
    assert FromCents(1151) == CurrencyAmount(11, 51);
  }

  /** $50.00 at 20% split two ways: $10.00 tip, $60.00 total, $30.00 each. */
  lemma EvenSplitExample()
    ensures ComputeTotals(CurrencyAmount(50, 0), 20, 2)
         == Totals(CurrencyAmount(10, 0), CurrencyAmount(60, 0), CurrencyAmount(30, 0))
  {
  }
}
