/** The two revisions side by side: `project` rounds the tip to the
    nearest cent, `src` rounds it up, so for the same inputs the `src` tip is
    never smaller and at most one cent larger. */
module Revisions {
  import opened Currency
  import ProjectCalculator
  import SrcCalculator

  lemma {:induction false} TipRoundingDiffers(bill: CurrencyAmount, tipPercent: int, numSplitting: int)
    requires InCents(bill) >= 0 && tipPercent >= 0 && numSplitting >= 1
    ensures var nearest := InCents(ProjectCalculator.ComputeTotals(bill, tipPercent, numSplitting).tip);
            var up := InCents(SrcCalculator.ComputeTotals(bill, tipPercent, numSplitting).tip);
            nearest <= up <= nearest + 1
  {
    ProjectCalculator.ComputeTotalsRounding(bill, tipPercent, numSplitting);
    SrcCalculator.ComputeTotalsCeiling(bill, tipPercent, numSplitting);
  }
}
