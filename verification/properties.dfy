/** What handler selection and payment promise their callers. */
module Properties {
  import opened Ledger
  import opened Fees
  import opened Settlement

  /** A transfer between two accounts whose ids coincide fails with
      SelfTransaction before any other rule is consulted, whatever the
      state, strategy or amount, and changes nothing; no other rule
      reports SelfTransaction. */
  lemma SelfTransferRejectedFirst(h: Handler, store: seq<Account>, t: Transaction)
    requires Resolves(store, t)
    ensures Pay(h, store, t).outcome == Fail(SelfTransaction) <==> store[t.sender].id == store[t.recipient].id
    ensures store[t.sender].id == store[t.recipient].id ==> Pay(h, store, t) == Paid(store, t, Fail(SelfTransaction))
  {
    VerdictIsChain(store, t, Effective(h, t.amount));
  }

  /** A CLOSED transaction between distinct accounts is rejected with
      AlreadyClosed and nothing changes. */
  lemma ClosedRejected(h: Handler, store: seq<Account>, t: Transaction)
    requires Resolves(store, t)
    requires store[t.sender].id != store[t.recipient].id
    requires t.state == ClosedState
    ensures Pay(h, store, t) == Paid(store, t, Fail(AlreadyClosed))
  {
    VerdictIsChain(store, t, Effective(h, t.amount));
  }

  /** An EXPIRED transaction between distinct accounts is rejected with
      Expired and nothing changes. */
  lemma ExpiredRejected(h: Handler, store: seq<Account>, t: Transaction)
    requires Resolves(store, t)
    requires store[t.sender].id != store[t.recipient].id
    requires t.state == ExpiredState
    ensures Pay(h, store, t) == Paid(store, t, Fail(Expired))
  {
    VerdictIsChain(store, t, Effective(h, t.amount));
  }

  /** A sender whose balance is below the effective amount makes an
      otherwise admissible payment fail with InsufficientBalance, and
      nothing changes. */
  lemma InsufficientRejected(h: Handler, store: seq<Account>, t: Transaction)
    requires Resolves(store, t)
    requires store[t.sender].id != store[t.recipient].id
    requires t.state != ClosedState && t.state != ExpiredState
    requires store[t.sender].balance < Effective(h, t.amount)
    ensures Pay(h, store, t) == Paid(store, t, Fail(InsufficientBalance))
  {
    VerdictIsChain(store, t, Effective(h, t.amount));
  }

  /** A payment succeeds exactly when the accounts differ, the transaction
      is neither CLOSED nor EXPIRED, and the sender covers the effective
      amount; any state string other than those two is payable, OPEN among
      them. */
  lemma PaySucceedsIff(h: Handler, store: seq<Account>, t: Transaction)
    requires Resolves(store, t)
    ensures Pay(h, store, t).outcome.Pass? <==>
      && store[t.sender].id != store[t.recipient].id
      && t.state != ClosedState
      && t.state != ExpiredState
      && Effective(h, t.amount) <= store[t.sender].balance
  {
    VerdictIsChain(store, t, Effective(h, t.amount));
  }

  /** A successful payment moves the same effective amount out of the
      sender and into the recipient, so their combined balance is kept. */
  lemma PayConservesPair(h: Handler, store: seq<Account>, t: Transaction)
    requires Resolves(store, t)
    requires Pay(h, store, t).outcome.Pass?
    ensures var r := Pay(h, store, t);
      && t.sender != t.recipient
      && r.store[t.sender].balance + r.store[t.recipient].balance
         == store[t.sender].balance + store[t.recipient].balance
  {
  }

  /** Replacing one account changes the total by the difference of the two
      balances. */
  lemma {:induction false} TotalUpdate(store: seq<Account>, i: nat, a: Account)
    requires i < |store|
    ensures Total(store[i := a]) + store[i].balance == Total(store) + a.balance
  {
    if i == 0 {
      assert store[i := a][1..] == store[1..];
    } else {
      TotalUpdate(store[1..], i - 1, a);
      assert store[i := a][1..] == store[1..][i - 1 := a];
    }
  }

  /** No payment, successful or not, creates or destroys value anywhere in
      the account store. */
  lemma PayConservesTotal(h: Handler, store: seq<Account>, t: Transaction)
    requires Resolves(store, t)
    ensures Total(Pay(h, store, t).store) == Total(store)
  {
    var r := Pay(h, store, t);
    if r.outcome.Pass? {
      var e := Effective(h, t.amount);
      var debited := store[t.sender := r.store[t.sender]];
      TotalUpdate(store, t.sender, r.store[t.sender]);
      TotalUpdate(debited, t.recipient, r.store[t.recipient]);
      assert debited[t.recipient := r.store[t.recipient]] == r.store;
    }
  }

  /** Once a payment has succeeded, paying the same transaction again fails
      with AlreadyClosed and changes nothing. */
  lemma SecondPaymentFails(store: seq<Account>, t: Transaction)
    requires t.handler.Some?
    requires Resolves(store, t)
    requires MakePayment(store, t).outcome.Pass?
    ensures var r := MakePayment(store, t);
      && Resolves(r.store, r.tx)
      && r.tx.handler == t.handler
      && MakePayment(r.store, r.tx) == Paid(r.store, r.tx, Fail(AlreadyClosed))
  {
    var r := MakePayment(store, t);
    PaySucceedsIff(t.handler.value, store, t);
    ClosedRejected(t.handler.value, r.store, r.tx);
  }

  /** Selecting by the code of strategy `h` binds `h` and nothing else,
      replacing any handler bound before. */
  lemma SelectRoundTrip(h: Handler, t: Transaction)
    ensures SelectHandler(t.(paymentMethod := Code(h))) ==
      Selection(t.(paymentMethod := Code(h), handler := Some(h)), Pass)
  {
  }

  /** Distinct strategies are selected by distinct codes, so a code binds
      at most one strategy. */
  lemma CodeInjective(h1: Handler, h2: Handler)
    ensures Code(h1) == Code(h2) <==> h1 == h2
  {
  }

  /** A payment-method string that is no strategy's code fails selection
      with HandlerNotFound and leaves the transaction, and so whatever
      handler it had, as it was. */
  lemma UnknownMethodRejected(t: Transaction)
    requires forall h: Handler :: Code(h) != t.paymentMethod
    ensures SelectHandler(t) == Selection(t, Fail(HandlerNotFound))
  {
  }

  /** Selection followed by payment, as the program's caller does it: a
      recognised code binds the strategy it names, and paying then is
      paying with that strategy. The outcome and the account store agree,
      and the transactions differ only in the bound handler. */
  lemma SelectThenPay(h: Handler, store: seq<Account>, t: Transaction)
    requires Resolves(store, t)
    requires t.paymentMethod == Code(h)
    ensures var s := SelectHandler(t);
      && s.outcome == Pass
      && Resolves(store, s.tx)
      && s.tx.handler == Some(h)
      && MakePayment(store, s.tx).outcome == Pay(h, store, t).outcome
      && MakePayment(store, s.tx).store == Pay(h, store, t).store
      && MakePayment(store, s.tx).tx == Pay(h, store, t).tx.(handler := Some(h))
  {
    SelectRoundTrip(h, t);
    assert t.(paymentMethod := Code(h)) == t;
  }

  /** The program's five error texts are pairwise distinct, so a caller
      reading only the text tells apart exactly the cases Error does. */
  lemma MessageInjective(a: Error, b: Error)
    ensures Message(a) == Message(b) <==> a == b
  {
  }
}
