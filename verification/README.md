# Transaction settlement of a minimal ledger

A Dafny model of the settlement core of a small Go ledger (`main.go`).
Accounts exchange value through transactions. Each transaction carries a
payment-method code: `"C"` for credit, `"S"` for cash or `"D"` for debit.
Handler selection binds one of three settlement strategies from that code.
Payment then runs the bound strategy. Every strategy checks the same four
rules in the same order and stops at the first that fails:

1. the two accounts have the same id;
2. the transaction is CLOSED;
3. the transaction is EXPIRED;
4. the sender's balance is below the effective amount.

The strategies differ only in the effective amount they move. Credit moves
the amount plus 10%, cash the amount less 10%, both rounded down, and
debit the amount itself. On success the sender loses that amount, the
recipient gains it, and the transaction becomes CLOSED.

Modules:

- `Ledger` (`ledger.dfy`): accounts, transactions, the string codes for
  payment methods and states, strategies, errors, and the account store.
  The store is a sequence of accounts indexed by `Ref`, which stands for a
  Go `*Account`.
- `Fees` (`fees.dfy`): the effective amount per strategy.
- `Settlement` (`settlement.dfy`): the validation rules as data
  (`ValidationOrder`), a generic first-failing-rule search
  (`FirstViolated`), the shared `pay` routine (`Pay`), `SelectHandler` and
  `MakePayment`.
- `Properties` (`properties.dfy`): the rejection rules, the success
  condition, conservation, the failure of a second payment, and selection
  round trips.
- `Uint32Overflow` (`overflow.dfy`): the balance update on the program's
  32-bit balances (see Findings).
- `Scenarios` (`scenarios.dfy`): the program's demonstration run and
  variations of it.

The three Go `pay` methods differ only in the amount they move. They are
therefore modelled as one function, `Pay`, parameterised by the strategy.
Accounts are values in a store rather than shared heap objects. The
self-transfer rule compares ids, as the program does. Two references to
one account always carry the same id, so a payment that passes that rule
updates two distinct store entries. This matches the program's reference
behaviour.

## Model

| member | source | states |
|---|---|---|
| Fees.Effective | main.go:97-158 | Debit moves the requested amount. Credit moves the largest e with 10·e ≤ 11·amount, which is at least the amount. Cash moves the largest e with 10·e ≤ 9·amount, which is at most the amount. |
| Settlement.FirstViolated | main.go:84-99 | Returns the position of the first rule in a list that rejects the transaction, or the list length. Every earlier rule passes. |
| Settlement.VerdictIsChain | main.go:85-99 | The first-failing-rule verdict over the rule order [self transfer, CLOSED, EXPIRED, balance] is the program's chain of four ifs. |
| Settlement.Pay | main.go:84-162 | Reports the first violated rule for the strategy's effective amount. On failure the store and transaction are unchanged. On success the sender loses exactly the effective amount and the recipient gains it. Every other account is unchanged. The transaction is CLOSED and otherwise unchanged. |
| Settlement.SelectHandler | main.go:64-78 | Succeeds exactly when the method string is some strategy's code. It then binds a strategy with that code and changes nothing else. Otherwise it fails with HandlerNotFound and leaves the transaction, including its bound handler, untouched. |
| Settlement.MakePayment | main.go:53-61 | Paying through the bound handler meets that handler's full `pay` contract. |
| Properties.SelfTransferRejectedFirst | main.go:85-87 | Equal ids fail with SelfTransaction, whatever the state, strategy or amount, and change nothing. SelfTransaction is reported only for equal ids. |
| Properties.ClosedRejected | main.go:89-91 | A CLOSED transaction between different accounts fails with AlreadyClosed and changes nothing. |
| Properties.ExpiredRejected | main.go:93-95 | An EXPIRED transaction between different accounts fails with Expired and changes nothing. |
| Properties.InsufficientRejected | main.go:97-99 | A sender below the effective amount fails an otherwise payable transaction with InsufficientBalance and changes nothing. |
| Properties.PaySucceedsIff | main.go:84-105 | Payment succeeds exactly when the ids differ, the state is neither CLOSED nor EXPIRED, and the sender covers the effective amount. |
| Properties.PayConservesPair | main.go:101-103 | A successful payment keeps the sum of the sender's and the recipient's balances, and the two are different store entries. |
| Properties.PayConservesTotal | main.go:101-102 | No payment changes the sum of all balances in the store. |
| Properties.SecondPaymentFails | main.go:89-103 | After a successful payment, paying the closed transaction again fails with AlreadyClosed and changes nothing. |
| Properties.SelectRoundTrip | main.go:65-74 | Selecting by a strategy's code binds exactly that strategy, replacing any earlier binding. |
| Properties.CodeInjective | main.go:19-23 | The three method codes are pairwise distinct, so one code selects at most one strategy. |
| Properties.UnknownMethodRejected | main.go:75-76 | A method string that is no strategy's code fails with HandlerNotFound and leaves the transaction as it was. |
| Properties.SelectThenPay | main.go:53-78 | Selecting by a strategy's code, then paying, is paying with that strategy: the same outcome and account store, and a transaction that differs only in its bound handler. |
| Properties.MessageInjective | main.go:76-98 | The five error texts are pairwise distinct, so the text identifies the error. |
| Uint32Overflow.SettleU32 | main.go:101-102 | On uint32 balances the debit is exact because the balance check came first. The credit wraps modulo 2^32. The two balances keep their sum exactly when the credit does not wrap. |
| Uint32Overflow.RecipientWrapLosesValue | main.go:102 | Crediting 1 to a balance of 4294967295 leaves 0, so the two balances no longer sum to what they did. |
| Scenarios.CashDemo | main.go:164-197 | The demonstration pays 55 by cash from 150 to 5, moving 49. The balances end at 101 and 54, and the transaction is CLOSED. |
| Scenarios.CreditDemo | main.go:84-106 | The same payment by credit moves 60, leaving 90 and 65. |
| Scenarios.DebitShortDemo | main.go:153-155 | A debit of 55 from a balance of 10 fails with InsufficientBalance and leaves both balances unchanged. |
| Scenarios.UnknownCodeDemo | main.go:75-76 | The method string "X" fails selection with HandlerNotFound. |

## Left out

- Fees.Effective: the program computes `uint32(float64(amount) * 1.10)` and `* 0.90` in floating point. The model uses the integer rules `amount * 11 / 10` and `amount * 9 / 10`, which are the intended rounding down. Both float constants are stored slightly above 1.1 and 0.9. An exact multiple of 10 therefore never rounds below its true product. Any other product lies at least 0.1 from an integer, far beyond float64 error at these magnitudes. So the two agree wherever the product fits in 32 bits. The model does not prove this.
- Fees.Effective: a credit amount of 3904515724 or more has an effective amount above 4294967295. The model keeps the exact integer, so such a payment fails the balance check for every sender balance the program can hold (at most 4294967295). The model's unbounded balances can cover it, where Go's conversion result is implementation-dependent.
- Balances are unbounded naturals in `Ledger`, `Settlement` and `Properties`. The program's 32-bit wrap on the recipient is modelled separately in `Uint32Overflow` and listed under Findings.
- Settlement.MakePayment requires a bound handler, and every settlement member requires both account references to resolve. In the program a nil handler or nil account is a runtime panic, not a returned error.
- `Account.name` and `Account.transactions` are not modelled. No settlement logic reads them.
- Nothing in the program moves a transaction to EXPIRED. The model treats EXPIRED only as a state that `pay` rejects.
- `main()` and `log.Println` are not modelled as operations. Their printing is I/O. The demonstration's data appears in `Scenarios.CashDemo`.
- Error values are modelled as the `Error` datatype. The program's message texts are kept in `Ledger.Message`; `Properties.MessageInjective` shows they are distinct.
- There is no concurrency. The program is single-threaded.

## Findings

| source | as written | input that shows it | evidently intended | confidence | as-written member | corrected member |
|---|---|---|---|---|---|---|
| main.go:102 (also 130, 158) | `t.recipient.balance += …` on a `uint32` wraps modulo 2^32 | sender 10, recipient 4294967295, debit of 1: balances become 9 and 0 | the recipient gains exactly what the sender loses, so no value is destroyed | not executed; high (Go defines unsigned addition as wrapping) | Uint32Overflow.SettleU32, Uint32Overflow.RecipientWrapLosesValue | Settlement.Pay, with Properties.PayConservesTotal proved of it |
