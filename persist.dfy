/** The device's persistent key-value store, as the calculator uses it:
    integer keys holding either an integer (`persist_write_int`) or a bill
    record (`persist_write_data` of a `CurrencyAmount`). A write to a key
    replaces what was there, so the last write to a key wins. */
module Persist {
  import opened Currency

  datatype StoredValue = IntValue(i: int) | BillRecord(amount: CurrencyAmount)

  type Store = map<int, StoredValue>

  /** `persist_read_int`: the integer stored under `key`, or 0 when the key
      was never written. A key that holds a bill record also reads as 0. */
  function ReadInt(store: Store, key: int): int {
    if key in store && store[key].IntValue? then store[key].i else 0
  }

  /** `persist_read_data` into a `CurrencyAmount` buffer that holds `buffer`:
      the stored record when there is one; otherwise the buffer is left as
      it was. */
  function ReadBill(store: Store, key: int, buffer: CurrencyAmount): CurrencyAmount {
    if key in store && store[key].BillRecord? then store[key].amount else buffer
  }

  /** An integer read returns the last integer written to that key, and a
      write to one key does not change what another key reads. */
  lemma ReadIntAfterWrite(store: Store, key: int, other: int, v: StoredValue)
    ensures v.IntValue? ==> ReadInt(store[key := v], key) == v.i
    ensures v.BillRecord? ==> ReadInt(store[key := v], key) == 0
    ensures other != key ==> ReadInt(store[key := v], other) == ReadInt(store, other)
  {
  }

  /** A bill read returns the last bill record written to that key; after an
      integer write to it the buffer is left as it was; a write to one key
      does not change what another key reads. */
  lemma ReadBillAfterWrite(store: Store, key: int, other: int, v: StoredValue, buffer: CurrencyAmount)
    ensures v.BillRecord? ==> ReadBill(store[key := v], key, buffer) == v.amount
    ensures v.IntValue? ==> ReadBill(store[key := v], key, buffer) == buffer
    ensures other != key ==> ReadBill(store[key := v], other, buffer) == ReadBill(store, other, buffer)
  {
  }
}
