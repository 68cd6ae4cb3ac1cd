/** The calculator's fixed-point money value: a dollar part and a cents
    part, always read back as `100 * dollars + cents`. Both revisions of the
    calculator carry the same two helpers, so they are defined once here. */
module Currency {
  import opened CArith

  datatype CurrencyAmount = CurrencyAmount(dollars: int, cents: int)

  /** A value whose cents lie in [0,99] and whose dollars are not negative:
      the shape every amount the calculator builds from non-negative cents has. */
  predicate Normal(a: CurrencyAmount) {
    a.dollars >= 0 && 0 <= a.cents <= 99
  }

  /** `currency_amount_get_in_cents` (`currency_amount_get_as_cents` in the
      other revision). */
  function InCents(a: CurrencyAmount): int
  {
    100 * a.dollars + a.cents
  }

  /** `currency_amount_set_from_cents`: the amount it stores in its
      output argument, built with C's truncating `/` and `%`. */
  function FromCents(totalCents: int): (a: CurrencyAmount)
    ensures InCents(a) == totalCents
    ensures totalCents >= 0 <==> Normal(a)
    ensures totalCents < 0 ==> a.dollars <= 0 && -99 <= a.cents <= 0
  {
    CurrencyAmount(Quot(totalCents, 100), Rem(totalCents, 100))
  }

  /** The other direction of the round trip: splitting the cents of a
      normal amount gives that amount back. */
  lemma FromInCents(a: CurrencyAmount)
    requires Normal(a)
    ensures FromCents(InCents(a)) == a
  {
  }
}
