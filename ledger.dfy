/** The `general_ledger` row shared by the financial-report and general-ledger views. */
module Ledger {
  import opened Wrappers

  /** A transaction date as a day number; ISO `YYYY-MM-DD` strings compare in the same order. */
  type Date = int

  /**
   * One ledger row. Amounts are whole minor units; a `null` debit or credit is `None`.
   */
  datatype Entry = Entry(account: string, description: string, date: Date, debit: Option<int>, credit: Option<int>)

  /** `(amount || 0)`: a missing amount counts as zero. */
  function Amount(x: Option<int>): (v: int)
    ensures x.None? ==> v == 0
    ensures x.Some? ==> v == x.value
  {
    x.GetOr(0)
  }

  /** What one row adds to its account's balance: `(debit || 0) - (credit || 0)`. */
  function Net(e: Entry): int {
    Amount(e.debit) - Amount(e.credit)
  }
}
