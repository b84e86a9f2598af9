/** Concrete runs of the core: the program's own demonstration and two
    variations of it with other strategies and balances. */
module Scenarios {
  import opened Ledger
  import opened Fees
  import opened Settlement

  /** Account 1 holds 150 and account 2 holds 5. */
  const DemoStore: seq<Account> := [Account(1, 150), Account(2, 5)]

  /** An OPEN, unbound transaction of 55 from account 1 to account 2. */
  function DemoTransaction(code: MethodCode): Transaction
  {
    Transaction(1, 55, 0, 1, OpenState, code, None)
  }

  /** The program's demonstration: a cash payment of 55 moves 49, leaving
      101 and 54, and closes the transaction. */
  lemma CashDemo()
    ensures var s := SelectHandler(DemoTransaction(CashCode));
      && s.outcome == Pass
      && s.tx.handler == Some(CashHandler)
      && MakePayment(DemoStore, s.tx) ==
         Paid([Account(1, 101), Account(2, 54)], s.tx.(state := ClosedState), Pass)
  {
    assert Effective(CashHandler, 55) == 49;
  }

  /** The same payment by credit moves 60, leaving 90 and 65. */
  lemma CreditDemo()
    ensures var s := SelectHandler(DemoTransaction(CreditCode));
      && s.outcome == Pass
      && MakePayment(DemoStore, s.tx) ==
         Paid([Account(1, 90), Account(2, 65)], s.tx.(state := ClosedState), Pass)
  {
    assert Effective(CreditHandler, 55) == 60;
  }

  /** By debit from a sender holding only 10, the payment of 55 fails with
      InsufficientBalance and nothing changes. */
  lemma DebitShortDemo()
    ensures var store := [Account(1, 10), Account(2, 5)];
      var s := SelectHandler(DemoTransaction(DebitCode));
      && s.outcome == Pass
      && MakePayment(store, s.tx) == Paid(store, s.tx, Fail(InsufficientBalance))
  {
  }

  /** A payment-method string outside "C", "S" and "D" fails selection. */
  lemma UnknownCodeDemo()
    ensures SelectHandler(DemoTransaction("X")) == Selection(DemoTransaction("X"), Fail(HandlerNotFound))
  {
  }
}
