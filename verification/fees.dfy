/** The amount a strategy actually moves, as distinct from the amount the
    transaction requests. */
module Fees {
  import opened Ledger

  /** Credit adds a 10% surcharge and cash takes a 10% discount, both
      rounded down to a whole unit; debit moves the requested amount. */
  function Effective(h: Handler, amount: nat): (e: nat)
    ensures h == DebitHandler ==> e == amount
    ensures h == CreditHandler ==> 10 * e <= 11 * amount < 10 * e + 10
    ensures h == CashHandler ==> 10 * e <= 9 * amount < 10 * e + 10
    ensures h == CreditHandler ==> amount <= e
    ensures h == CashHandler ==> e <= amount
  {
    match h
    case CreditHandler => amount * 11 / 10
    case CashHandler => amount * 9 / 10
    case DebitHandler => amount
  }
}
