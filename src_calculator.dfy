/** The calculation engine of the `src` revision (src/calculator.c): the
    same six module-level values as the other revision, with the derived
    amounts rounded UP to the next cent, single-step increment and decrement
    editors that recompute after every step, different defaults, and its
    own persistence keys and text formats. */
module SrcCalculator {
  import opened CArith
  import opened Currency
  import opened Text
  import opened Persist

  const MinBillDollars := 1
  const MinTipPercent := 1
  const MinNumSplitting := 1
  const MaxBillDollars := 999
  const MaxTipPercent := 40
  const MaxNumSplitting := 9
  const DefaultTipPercent := 34
  const DefaultNumSplitting := 4
  const DefaultBill := CurrencyAmount(444, 44)
  const PersistVersion := 1
  const KeyVersion := 100
  const KeyBill := 200
  const KeyTipPercent := 300
  const KeyNumSplitting := 400

  /** `r` is num/den rounded up: the least integer whose multiple of den
      reaches num. */
  predicate RoundsUp(num: int, den: int, r: int) {
    (r - 1) * den < num <= r * den
  }

  /** For a positive denominator exactly one integer rounds num/den up, so
      `RoundsUp` is a complete specification of the rounding. */
  lemma RoundsUpUnique(num: int, den: int, r1: int, r2: int)
    requires den >= 1
    requires RoundsUp(num, den, r1) && RoundsUp(num, den, r2)
    ensures r1 == r2
  {
    assert (r1 - r2) * den == r1 * den - r2 * den;
    assert (r2 - r1) * den == r2 * den - r1 * den;
    BelowOneFactor(r1 - r2, den);
    BelowOneFactor(r2 - r1, den);
  }

  /** `ceil((double)a / (double)b)` for the operands the engine passes
      (below 2^23, divisors at most 100), where the floating-point quotient
      never lands on the wrong side of an integer: the exact ceiling. */
  function CeilDiv(a: int, b: int): int
    requires b != 0
  {
    if b > 0 then -((-a) / b) else -(a / (-b))
  }

  /** `CeilDiv` rounds up, and is not negative for a non-negative
      dividend. */
  lemma CeilDivIsCeiling(a: int, b: int)
    requires b >= 1
    ensures RoundsUp(a, b, CeilDiv(a, b))
    ensures a >= 0 ==> CeilDiv(a, b) >= 0
  {
    var q := (-a) / b;
    var m := (-a) % b;
    assert -a == b * q + m && 0 <= m < b;
    assert CeilDiv(a, b) * b == a + m;
  }

  datatype Totals = Totals(tip: CurrencyAmount, total: CurrencyAmount, perPerson: CurrencyAmount)

  /** What `update_totals` computes from the three inputs. The total is the
      bill plus the tip, to the cent. */
  function ComputeTotals(bill: CurrencyAmount, tipPercent: int, numSplitting: int): (t: Totals)
    requires numSplitting != 0
    ensures InCents(t.total) == InCents(bill) + InCents(t.tip)
  {
    var billInCents := InCents(bill);
    var tipInCents := CeilDiv(billInCents * tipPercent, 100);
    var totalInCents := billInCents + tipInCents;
    Totals(FromCents(tipInCents), FromCents(totalInCents), FromCents(CeilDiv(totalInCents, numSplitting)))
  }

  /** For a non-negative bill and tip percentage: the tip is bill *
      percentage / 100 rounded up to the cent, the share is total / people
      rounded up, and every amount has its cents in [0,99]. */
  lemma ComputeTotalsCeiling(bill: CurrencyAmount, tipPercent: int, numSplitting: int)
    requires InCents(bill) >= 0 && tipPercent >= 0 && numSplitting >= 1
    ensures var t := ComputeTotals(bill, tipPercent, numSplitting);
      && RoundsUp(InCents(bill) * tipPercent, 100, InCents(t.tip))
      && RoundsUp(InCents(t.total), numSplitting, InCents(t.perPerson))
      && Normal(t.tip) && Normal(t.total) && Normal(t.perPerson)
  {
    var t := ComputeTotals(bill, tipPercent, numSplitting);
    var b := InCents(bill);
    ProductNonNegative(b, tipPercent);
    assert InCents(t.tip) == CeilDiv(b * tipPercent, 100);
    assert InCents(t.tip) >= 0 && RoundsUp(b * tipPercent, 100, InCents(t.tip)) by {
      CeilDivIsCeiling(b * tipPercent, 100);
    }
    assert InCents(t.perPerson) == CeilDiv(InCents(t.total), numSplitting);
    assert InCents(t.perPerson) >= 0 && RoundsUp(InCents(t.total), numSplitting, InCents(t.perPerson)) by {
      CeilDivIsCeiling(InCents(t.total), numSplitting);
    }
  }

  /** The three editable inputs lie in their ranges: dollars in [1,999],
      cents in [0,99], tip percentage in [1,40], people in [1,9]. */
  predicate InputsInRange(bill: CurrencyAmount, tipPercent: int, numSplitting: int) {
    && MinBillDollars <= bill.dollars <= MaxBillDollars
    && 0 <= bill.cents <= 99
    && MinTipPercent <= tipPercent <= MaxTipPercent
    && MinNumSplitting <= numSplitting <= MaxNumSplitting
  }

  lemma TipCentsBound(billInCents: int, tipPercent: int)
    requires 0 <= billInCents <= 99999 && 0 <= tipPercent <= 40
    ensures 0 <= CeilDiv(billInCents * tipPercent, 100) <= 40000
  {
    ProductNonNegative(billInCents, tipPercent);
    ProductAtMost(billInCents, tipPercent, 99999, 40);
    CeilDivIsCeiling(billInCents * tipPercent, 100);
  }

  lemma ShareCentsBound(totalInCents: int, numSplitting: int)
    requires 0 <= totalInCents && 1 <= numSplitting
    ensures 0 <= CeilDiv(totalInCents, numSplitting) <= totalInCents
  {
    var r := CeilDiv(totalInCents, numSplitting);
    CeilDivIsCeiling(totalInCents, numSplitting);
    AtLeastOneFactor(totalInCents, numSplitting);
    assert (r - totalInCents) * numSplitting == (r - 1) * numSplitting - totalInCents * numSplitting + numSplitting;
    BelowOneFactor(r - totalInCents, numSplitting);
  }

  /** For inputs in range the derived amounts fit the 8-character total
      text: the total is at most $1399.99 and the share never exceeds it. */
  lemma TotalsFitDisplay(bill: CurrencyAmount, tipPercent: int, numSplitting: int, t: Totals)
    ensures InputsInRange(bill, tipPercent, numSplitting) && t == ComputeTotals(bill, tipPercent, numSplitting) ==>
      && Normal(t.tip) && InCents(t.tip) <= 40000
      && Normal(t.total) && InCents(t.total) <= 139999 && |Digits(t.total.dollars)| <= 4
      && Normal(t.perPerson) && InCents(t.perPerson) <= InCents(t.total) && |Digits(t.perPerson.dollars)| <= 4
  {
    if InputsInRange(bill, tipPercent, numSplitting) && t == ComputeTotals(bill, tipPercent, numSplitting) {
      var b := InCents(bill);
      assert t.tip == FromCents(CeilDiv(b * tipPercent, 100));
      TipCentsBound(b, tipPercent);
      assert t.perPerson == FromCents(CeilDiv(InCents(t.total), numSplitting));
      ShareCentsBound(InCents(t.total), numSplitting);
      DigitsLength(t.total.dollars, 4);
      DigitsLength(t.perPerson.dollars, 4);
    }
  }

  /** The step of every `calc_inc_*`: one up, and from the top of [lo,hi]
      back to `lo`. */
  function Incremented(v: int, lo: int, hi: int): (r: int)
    requires lo <= hi
    ensures lo <= v <= hi ==> lo <= r <= hi
    ensures v < hi ==> r == v + 1
    ensures v >= hi ==> r == lo
  {
    if v + 1 > hi then lo else v + 1
  }

  /** The step of every `calc_dec_*`: one down, and from the bottom of
      [lo,hi] to `hi`. */
  function Decremented(v: int, lo: int, hi: int): (r: int)
    requires lo <= hi
    ensures lo <= v <= hi ==> lo <= r <= hi
    ensures v > lo ==> r == v - 1
    ensures v <= lo ==> r == hi
  {
    if v - 1 < lo then hi else v - 1
  }

  /** Within the range a decrement undoes an increment and the other way
      round. */
  lemma StepsUndoEachOther(v: int, lo: int, hi: int)
    requires lo <= v <= hi
    ensures Decremented(Incremented(v, lo, hi), lo, hi) == v
    ensures Incremented(Decremented(v, lo, hi), lo, hi) == v
  {
  }

  /** `k` increments in a row. */
  function IncrementedTimes(v: int, k: nat, lo: int, hi: int): int
    requires lo <= hi
  {
    if k == 0 then v else Incremented(IncrementedTimes(v, k - 1, lo, hi), lo, hi)
  }

  /** Below the top of the range, `k` increments add `k`. */
  lemma {:induction false} IncrementedTimesClimbs(v: int, k: nat, lo: int, hi: int)
    requires lo <= v && v + k <= hi
    ensures IncrementedTimes(v, k, lo, hi) == v + k
  {
    if k > 0 {
      IncrementedTimesClimbs(v, k - 1, lo, hi);
    }
  }

  /** `a` increments followed by `b` more are `a + b` increments. */
  lemma {:induction false} IncrementedTimesAdd(v: int, a: nat, b: nat, lo: int, hi: int)
    requires lo <= hi
    ensures IncrementedTimes(v, a + b, lo, hi) == IncrementedTimes(IncrementedTimes(v, a, lo, hi), b, lo, hi)
  {
    if b > 0 {
      IncrementedTimesAdd(v, a, b - 1, lo, hi);
    }
  }

  /** One increment per value of the range brings a field back to where it
      started: holding up through the whole range is a full cycle. */
  lemma FullCycle(v: int, lo: int, hi: int)
    requires lo <= v <= hi
    ensures IncrementedTimes(v, (hi - lo + 1) as nat, lo, hi) == v
  {
    var up := (hi - v) as nat;
    var rest := (v - lo) as nat;
    IncrementedTimesAdd(v, up, 1 + rest, lo, hi);
    IncrementedTimesClimbs(v, up, lo, hi);
    IncrementedTimesAdd(hi, 1, rest, lo, hi);
    assert IncrementedTimes(hi, 1, lo, hi) == lo;
    IncrementedTimesClimbs(lo, rest, lo, hi);
  }

  /** `r` is the 8-character `%4d.%2d/` text of the normal amount `a`:
      its dollars right-aligned in four columns, a point, its cents
      right-aligned in two columns, a slash. */
  predicate SlashedLayout(r: string, a: CurrencyAmount) {
    && Normal(a) && |Digits(a.dollars)| <= 4 && |Digits(a.cents)| <= 2
    && |r| == 8 && r[4] == '.' && r[7] == '/'
    && r[..4] == Repeat(' ', 4 - |Digits(a.dollars)|) + Digits(a.dollars)
    && r[5..7] == Repeat(' ', 2 - |Digits(a.cents)|) + Digits(a.cents)
  }

  /** `%4d.%2d/` in a 9-byte buffer: dollars right-aligned in four columns,
      a point, cents right-aligned in two columns with a space (not a zero)
      in front of a single digit, and a closing slash. */
  function SlashedMoneyText(a: CurrencyAmount): (r: string)
    ensures |r| <= 8
    ensures Normal(a) && |Digits(a.dollars)| <= 4 ==> SlashedLayout(r, a)
  {
    var s := FormatInt(a.dollars, 4, SpacePad) + "." + FormatInt(a.cents, 2, SpacePad) + "/";
    if Normal(a) && |Digits(a.dollars)| <= 4 then
      DigitsLength(a.cents, 2);
      SpacePadded(a.dollars, 4);
      SpacePadded(a.cents, 2);
      SlashedSlices(FormatInt(a.dollars, 4, SpacePad), FormatInt(a.cents, 2, SpacePad));
      Snprintf(s, 9)
    else
      Snprintf(s, 9)
  }

  lemma SlashedSlices(d: string, c: string)
    requires |d| == 4 && |c| == 2
    ensures var s := d + "." + c + "/"; |s| == 8 && s[..4] == d && s[5..7] == c && s[4] == '.' && s[7] == '/'
  {
    var s := d + "." + c + "/";
    assert s[..4] == d;
    assert s[5..7] == c;
  }

  /** $10.05 reads "  10. 5/". */
  lemma SlashedMoneyTextExample()
    ensures SlashedMoneyText(CurrencyAmount(10, 5)) == "  10. 5/"
  {
    var s := SlashedMoneyText(CurrencyAmount(10, 5));
    assert Digits(10) == "10" && Digits(5) == "5";
    assert s[..4] == "  10" && s[5..7] == " 5";
    assert s == s[..4] + "." + s[5..7] + "/";
  }

  /** The state of src/calculator.c: its six module-level statics. */
  class Calculator {
    var bill: CurrencyAmount
    var tip: CurrencyAmount
    var total: CurrencyAmount
    var totalPerPerson: CurrencyAmount
    var tipPercent: int
    var numSplitting: int

    ghost predicate InRange()
      reads this
    {
      InputsInRange(bill, tipPercent, numSplitting)
    }

    /** The derived amounts agree with the current inputs. */
    ghost predicate TotalsCurrent()
      reads this
    {
      numSplitting != 0 && Totals(tip, total, totalPerPerson) == ComputeTotals(bill, tipPercent, numSplitting)
    }

    /** The statics before `calc_persist_read` runs: all zero. */
    constructor ()
      ensures bill == tip == total == totalPerPerson == CurrencyAmount(0, 0)
      ensures tipPercent == 0 && numSplitting == 0
    {
      bill, tip, total, totalPerPerson := CurrencyAmount(0, 0), CurrencyAmount(0, 0), CurrencyAmount(0, 0), CurrencyAmount(0, 0);
      tipPercent, numSplitting := 0, 0;
    }

    /** `update_totals`. */
    method UpdateTotals()
      requires numSplitting != 0
      modifies this
      ensures bill == old(bill) && tipPercent == old(tipPercent) && numSplitting == old(numSplitting)
      ensures TotalsCurrent()
      ensures old(TotalsCurrent()) ==> unchanged(this)
    {
      var billC := InCents(bill);
      var tipC := CeilDiv(billC * tipPercent, 100);
      tip := FromCents(tipC);
      var totalC := billC + tipC;
      total := FromCents(totalC);
      var totalPerPersonC := CeilDiv(totalC, numSplitting);
      totalPerPerson := FromCents(totalPerPersonC);
    }

    /** `calc_persist_store` as written: the tip percentage and the number
        of people splitting are both written to the BILL key, and the bill
        record written last replaces them. Keys 300 and 400 are left as they
        were. */
    method PersistStore(store: Store) returns (saved: Store)
      ensures saved.Keys == store.Keys + {KeyVersion, KeyBill}
      ensures saved[KeyVersion] == IntValue(PersistVersion)
      ensures saved[KeyBill] == BillRecord(bill)
      ensures forall k :: k in store && k !in {KeyVersion, KeyBill} ==> saved[k] == store[k]
    {
      saved := store[KeyVersion := IntValue(PersistVersion)];
      saved := saved[KeyBill := IntValue(tipPercent)];
      saved := saved[KeyBill := IntValue(numSplitting)];
      saved := saved[KeyBill := BillRecord(bill)];
    }

    /** `calc_persist_store` with the tip percentage and the number of
        people splitting written to the keys `calc_persist_read` reads them
        from. */
    method PersistStoreFixed(store: Store) returns (saved: Store)
      ensures saved.Keys == store.Keys + {KeyVersion, KeyBill, KeyTipPercent, KeyNumSplitting}
      ensures saved[KeyVersion] == IntValue(PersistVersion)
      ensures saved[KeyBill] == BillRecord(bill)
      ensures saved[KeyTipPercent] == IntValue(tipPercent)
      ensures saved[KeyNumSplitting] == IntValue(numSplitting)
      ensures forall k :: k in store && k !in {KeyVersion, KeyBill, KeyTipPercent, KeyNumSplitting} ==> saved[k] == store[k]
    {
      saved := store[KeyVersion := IntValue(PersistVersion)];
      saved := saved[KeyTipPercent := IntValue(tipPercent)];
      saved := saved[KeyNumSplitting := IntValue(numSplitting)];
      saved := saved[KeyBill := BillRecord(bill)];
    }

    /** `calc_persist_read`: with a bill saved, the three inputs come from
        their keys (unchecked); otherwise $444.44, 34% and 4 people. The
        derived amounts are not recomputed. */
    method PersistRead(store: Store)
      modifies this`bill, this`tipPercent, this`numSplitting
      ensures KeyBill in store ==>
                && bill == ReadBill(store, KeyBill, old(bill))
                && tipPercent == ReadInt(store, KeyTipPercent)
                && numSplitting == ReadInt(store, KeyNumSplitting)
      ensures KeyBill !in store ==>
                bill == DefaultBill && tipPercent == DefaultTipPercent && numSplitting == DefaultNumSplitting
      ensures KeyBill !in store ==> InRange()
    {
      if KeyBill in store {
        bill := ReadBill(store, KeyBill, bill);
        tipPercent := ReadInt(store, KeyTipPercent);
        numSplitting := ReadInt(store, KeyNumSplitting);
      } else {
        bill := DefaultBill;
        tipPercent := DefaultTipPercent;
        numSplitting := DefaultNumSplitting;
      }
    }

    /** `calc_get_bill_dollars_txt`: `%3d` in a 4-byte buffer. */
    function BillDollarsText(): (r: string)
      reads this
      ensures |r| <= 3
      ensures InRange() ==> |r| == 3 && |Digits(bill.dollars)| <= 3 && r == Repeat(' ', 3 - |Digits(bill.dollars)|) + Digits(bill.dollars)
    {
      SpacePaddedFits(bill.dollars, 3);
      Snprintf(FormatInt(bill.dollars, 3, SpacePad), 4)
    }

    /** `calc_get_bill_cents_txt`: `%02d` in a 3-byte buffer. */
    function BillCentsText(): (r: string)
      reads this
      ensures |r| <= 2
      ensures InRange() ==> |r| == 2 && AllDigits(r) && DecimalValue(r) == bill.cents
    {
      DigitsFit(bill.cents, 2);
      Snprintf(FormatInt(bill.cents, 2, ZeroPad), 3)
    }

    /** `calc_get_tip_percent_txt`: `%2d` in a 3-byte buffer. */
    function TipPercentText(): (r: string)
      reads this
      ensures |r| <= 2
      ensures InRange() ==> |r| == 2 && |Digits(tipPercent)| <= 2 && r == Repeat(' ', 2 - |Digits(tipPercent)|) + Digits(tipPercent)
    {
      SpacePaddedFits(tipPercent, 2);
      Snprintf(FormatInt(tipPercent, 2, SpacePad), 3)
    }

    /** `calc_get_num_splitting_txt`: `%d` in a 2-byte buffer. */
    function NumSplittingText(): (r: string)
      reads this
      ensures |r| <= 1
      ensures InRange() ==> r == Digits(numSplitting) && DecimalValue(r) == numSplitting
    {
      DigitsFit(numSplitting, 1);
      Snprintf(FormatInt(numSplitting, 0, SpacePad), 2)
    }

    /** `calc_total_txt`: for inputs in range, always exactly 8 characters. */
    function TotalText(): (r: string)
      reads this
      ensures |r| <= 8
      ensures InRange() && TotalsCurrent() ==> SlashedLayout(r, total)
    {
      TotalsFitDisplay(bill, tipPercent, numSplitting, Totals(tip, total, totalPerPerson));
      SlashedMoneyText(total)
    }

    /** `calc_total_per_person_txt`: for inputs in range, always exactly 8
        characters. */
    function TotalPerPersonText(): (r: string)
      reads this
      ensures |r| <= 8
      ensures InRange() && TotalsCurrent() ==> SlashedLayout(r, totalPerPerson)
    {
      TotalsFitDisplay(bill, tipPercent, numSplitting, Totals(tip, total, totalPerPerson));
      SlashedMoneyText(totalPerPerson)
    }

    /** `calc_inc_bill_dollars`. */
    method IncBillDollars()
      requires numSplitting != 0
      modifies this
      ensures bill == CurrencyAmount(Incremented(old(bill.dollars), MinBillDollars, MaxBillDollars), old(bill.cents))
      ensures tipPercent == old(tipPercent) && numSplitting == old(numSplitting)
      ensures TotalsCurrent() && (old(InRange()) ==> InRange())
    {
      bill := bill.(dollars := bill.dollars + 1);
      if bill.dollars > MaxBillDollars {
        bill := bill.(dollars := MinBillDollars);
      }
      UpdateTotals();
    }

    /** `calc_dec_bill_dollars`. */
    method DecBillDollars()
      requires numSplitting != 0
      modifies this
      ensures bill == CurrencyAmount(Decremented(old(bill.dollars), MinBillDollars, MaxBillDollars), old(bill.cents))
      ensures tipPercent == old(tipPercent) && numSplitting == old(numSplitting)
      ensures TotalsCurrent() && (old(InRange()) ==> InRange())
    {
      bill := bill.(dollars := bill.dollars - 1);
      if bill.dollars < MinBillDollars {
        bill := bill.(dollars := MaxBillDollars);
      }
      UpdateTotals();
    }

    /** `calc_inc_bill_cents`: wraps 99 to 0 without carrying into the
        dollars. */
    method IncBillCents()
      requires numSplitting != 0
      modifies this
      ensures bill == CurrencyAmount(old(bill.dollars), Incremented(old(bill.cents), 0, 99))
      ensures tipPercent == old(tipPercent) && numSplitting == old(numSplitting)
      ensures TotalsCurrent() && (old(InRange()) ==> InRange())
    {
      bill := bill.(cents := bill.cents + 1);
      if bill.cents > 99 {
        bill := bill.(cents := 0);
      }
      UpdateTotals();
    }

    /** `calc_dec_bill_cents`: wraps 0 to 99 without borrowing from the
        dollars. */
    method DecBillCents()
      requires numSplitting != 0
      modifies this
      ensures bill == CurrencyAmount(old(bill.dollars), Decremented(old(bill.cents), 0, 99))
      ensures tipPercent == old(tipPercent) && numSplitting == old(numSplitting)
      ensures TotalsCurrent() && (old(InRange()) ==> InRange())
    {
      bill := bill.(cents := bill.cents - 1);
      if bill.cents < 0 {
        bill := bill.(cents := 99);
      }
      UpdateTotals();
    }

    /** `calc_inc_tip_percent`. */
    method IncTipPercent()
      requires numSplitting != 0
      modifies this
      ensures tipPercent == Incremented(old(tipPercent), MinTipPercent, MaxTipPercent)
      ensures bill == old(bill) && numSplitting == old(numSplitting)
      ensures TotalsCurrent() && (old(InRange()) ==> InRange())
    {
      tipPercent := tipPercent + 1;
      if tipPercent > MaxTipPercent {
        tipPercent := MinTipPercent;
      }
      UpdateTotals();
    }

    /** `calc_dec_tip_percent`. */
    method DecTipPercent()
      requires numSplitting != 0
      modifies this
      ensures tipPercent == Decremented(old(tipPercent), MinTipPercent, MaxTipPercent)
      ensures bill == old(bill) && numSplitting == old(numSplitting)
      ensures TotalsCurrent() && (old(InRange()) ==> InRange())
    {
      tipPercent := tipPercent - 1;
      if tipPercent < MinTipPercent {
        tipPercent := MaxTipPercent;
      }
      UpdateTotals();
    }

    /** `calc_inc_num_splitting`. Only a count of -1 would step to 0 and
        make the recomputation divide by zero. */
    method IncNumSplitting()
      requires numSplitting != -1
      modifies this
      ensures numSplitting == Incremented(old(numSplitting), MinNumSplitting, MaxNumSplitting)
      ensures bill == old(bill) && tipPercent == old(tipPercent)
      ensures TotalsCurrent() && (old(InRange()) ==> InRange())
    {
      numSplitting := numSplitting + 1;
      if numSplitting > MaxNumSplitting {
        numSplitting := MinNumSplitting;
      }
      UpdateTotals();
    }

    /** `calc_dec_num_splitting`. */
    method DecNumSplitting()
      modifies this
      ensures numSplitting == Decremented(old(numSplitting), MinNumSplitting, MaxNumSplitting)
      ensures bill == old(bill) && tipPercent == old(tipPercent)
      ensures TotalsCurrent() && (old(InRange()) ==> InRange())
    {
      numSplitting := numSplitting - 1;
      if numSplitting < MinNumSplitting {
        numSplitting := MaxNumSplitting;
      }
      UpdateTotals();
    }
  }

  /** Saving with `calc_persist_store` as written and reading back at the
      next launch restores the bill, but the tip percentage and the number
      of people come from whatever keys 300 and 400 held before: on a store
      that never held them both read as 0, out of range, and an edit of
      anything but the count then divides by zero in `double`. */
  method SaveThenReloadAsWritten(c: Calculator, store: Store)
    requires c.InRange()
    modifies c
    ensures c.bill == old(c.bill)
    ensures c.tipPercent == ReadInt(store, KeyTipPercent) && c.numSplitting == ReadInt(store, KeyNumSplitting)
    ensures KeyTipPercent !in store && KeyNumSplitting !in store ==>
              c.tipPercent == 0 && c.numSplitting == 0 && !c.InRange()
  {
    var saved := c.PersistStore(store);
    c.PersistRead(saved);
  }

  /** With the corrected store all three inputs survive a save and reload. */
  method SaveThenReloadFixed(c: Calculator, store: Store)
    requires c.InRange()
    modifies c
    ensures c.bill == old(c.bill) && c.tipPercent == old(c.tipPercent) && c.numSplitting == old(c.numSplitting)
    ensures c.InRange()
  {
    var saved := c.PersistStoreFixed(store);
    c.PersistRead(saved);
  }

  /** $10.01 at 15%: 150.15 cents of tip round up to 151. */
  lemma CeilingExample()
    ensures ComputeTotals(CurrencyAmount(10, 1), 15, 1)
         == Totals(CurrencyAmount(1, 51), CurrencyAmount(11, 52), CurrencyAmount(11, 52))
  {
  }
}
