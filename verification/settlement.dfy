/** Handler selection, the shared settlement routine of the three
    strategies, and payment through the bound handler. */
module Settlement {
  import opened Ledger
  import opened Fees

  /** The validation rules of `pay`, in the order every strategy checks
      them; the first one that rejects decides the error. */
  const ValidationOrder: seq<Error> :=
    [SelfTransaction, AlreadyClosed, Expired, InsufficientBalance]

  /** Whether rule `err` rejects `t` when `e` is the amount to be moved. */
  predicate Violates(store: seq<Account>, t: Transaction, e: nat, err: Error)
    requires Resolves(store, t)
  {
    match err
    case SelfTransaction => store[t.sender].id == store[t.recipient].id
    case AlreadyClosed => t.state == ClosedState
    case Expired => t.state == ExpiredState
    case InsufficientBalance => store[t.sender].balance < e
    case HandlerNotFound => false
  }

  /** The position of the first rule in `rules` that rejects `t`, or
      `|rules|` when none does. */
  function FirstViolated(rules: seq<Error>, store: seq<Account>, t: Transaction, e: nat): (k: nat)
    requires Resolves(store, t)
    ensures k <= |rules|
    ensures k < |rules| ==> Violates(store, t, e, rules[k])
    ensures forall j :: 0 <= j < k ==> !Violates(store, t, e, rules[j])
  {
    if |rules| == 0 then 0
    else if Violates(store, t, e, rules[0]) then 0
    else 1 + FirstViolated(rules[1..], store, t, e)
  }

  /** The outcome a short-circuiting check of ValidationOrder prescribes. */
  function Verdict(store: seq<Account>, t: Transaction, e: nat): Outcome
    requires Resolves(store, t)
  {
    var k := FirstViolated(ValidationOrder, store, t, e);
    if k < |ValidationOrder| then Fail(ValidationOrder[k]) else Pass
  }

  /** The verdict of the rule list is the program's chain of four `if`s:
      the self-transfer check, then CLOSED, then EXPIRED, then the balance. */
  lemma {:induction false} VerdictIsChain(store: seq<Account>, t: Transaction, e: nat)
    requires Resolves(store, t)
    ensures Verdict(store, t, e) ==
      if store[t.sender].id == store[t.recipient].id then Fail(SelfTransaction)
      else if t.state == ClosedState then Fail(AlreadyClosed)
      else if t.state == ExpiredState then Fail(Expired)
      else if store[t.sender].balance < e then Fail(InsufficientBalance)
      else Pass
  {
    var rules := ValidationOrder;
    var k := FirstViolated(rules, store, t, e);
    assert rules[1..] == [AlreadyClosed, Expired, InsufficientBalance];
    assert rules[2..] == [Expired, InsufficientBalance];
    assert rules[3..] == [InsufficientBalance];
    assert rules[4..] == [];
    assert FirstViolated(rules[4..], store, t, e) == 0;
    assert FirstViolated(rules[3..], store, t, e) == if Violates(store, t, e, rules[3]) then 0 else 1;
    assert FirstViolated(rules[2..], store, t, e) ==
      if Violates(store, t, e, rules[2]) then 0 else 1 + FirstViolated(rules[3..], store, t, e);
    assert FirstViolated(rules[1..], store, t, e) ==
      if Violates(store, t, e, rules[1]) then 0 else 1 + FirstViolated(rules[2..], store, t, e);
    assert k == if Violates(store, t, e, rules[0]) then 0 else 1 + FirstViolated(rules[1..], store, t, e);
  }

  /** The account store and transaction after a payment attempt, and its
      outcome (`nil` or an error in the program). */
  datatype Paid = Paid(store: seq<Account>, tx: Transaction, outcome: Outcome)

  /** `r` is `t` settled for `e`: the sender loses exactly `e`, the
      recipient gains exactly `e`, the transaction is CLOSED, and no other
      account or transaction field changes. */
  predicate Settled(store: seq<Account>, t: Transaction, e: nat, r: Paid)
    requires Resolves(store, t)
  {
    && |r.store| == |store|
    && r.store[t.sender].id == store[t.sender].id
    && r.store[t.sender].balance + e == store[t.sender].balance
    && r.store[t.recipient].id == store[t.recipient].id
    && r.store[t.recipient].balance == store[t.recipient].balance + e
    && (forall i :: 0 <= i < |store| && i != t.sender && i != t.recipient ==> r.store[i] == store[i])
    && r.tx == t.(state := ClosedState)
  }

  /** What a payment attempt with strategy `h` must do: report the first
      violated rule and change nothing, or settle the effective amount. */
  predicate PayContract(h: Handler, store: seq<Account>, t: Transaction, r: Paid)
    requires Resolves(store, t)
  {
    var e := Effective(h, t.amount);
    && r.outcome == Verdict(store, t, e)
    && (r.outcome.Fail? ==> r.store == store && r.tx == t)
    && (r.outcome.Pass? ==> Settled(store, t, e, r))
  }

  /** The `pay` method of the credit, cash and debit handlers, written once
      and parameterised by the strategy, which only fixes the amount moved. */
  function Pay(h: Handler, store: seq<Account>, t: Transaction): (r: Paid)
    requires Resolves(store, t)
    ensures PayContract(h, store, t, r)
  {
    var sender := store[t.sender];
    var recipient := store[t.recipient];
    var e := Effective(h, t.amount);
    VerdictIsChain(store, t, e);
    if sender.id == recipient.id then Paid(store, t, Fail(SelfTransaction))
    else if t.state == ClosedState then Paid(store, t, Fail(AlreadyClosed))
    else if t.state == ExpiredState then Paid(store, t, Fail(Expired))
    else if sender.balance < e then Paid(store, t, Fail(InsufficientBalance))
    else
      var debited := store[t.sender := sender.(balance := sender.balance - e)];
      var credited := debited[t.recipient := recipient.(balance := recipient.balance + e)];
      Paid(credited, t.(state := ClosedState), Pass)
  }

  /** The transaction after handler selection, and its outcome. */
  datatype Selection = Selection(tx: Transaction, outcome: Outcome)

  /** `selectTransactionHandler`: binds the strategy whose code is the
      transaction's payment method, or fails and leaves `t` as it was. */
  function SelectHandler(t: Transaction): (r: Selection)
    ensures r.outcome.Pass? <==> exists h: Handler :: Code(h) == t.paymentMethod
    ensures r.outcome.Pass? ==>
      r.tx.handler.Some? && Code(r.tx.handler.value) == t.paymentMethod && r.tx == t.(handler := r.tx.handler)
    ensures r.outcome.Fail? ==> r.outcome.error == HandlerNotFound && r.tx == t
  {
    assert Code(CreditHandler) == CreditCode && Code(CashHandler) == CashCode && Code(DebitHandler) == DebitCode;
    if t.paymentMethod == CreditCode then Selection(t.(handler := Some(CreditHandler)), Pass)
    else if t.paymentMethod == CashCode then Selection(t.(handler := Some(CashHandler)), Pass)
    else if t.paymentMethod == DebitCode then Selection(t.(handler := Some(DebitHandler)), Pass)
    else Selection(t, Fail(HandlerNotFound))
  }

  /** `makePayment`: pays `t` with the handler bound to it and passes the
      handler's result on unchanged. An unbound handler or a nil account is
      a panic in the program, hence the preconditions. */
  function MakePayment(store: seq<Account>, t: Transaction): (r: Paid)
    requires t.handler.Some?
    requires Resolves(store, t)
    ensures PayContract(t.handler.value, store, t, r)
  {
    Pay(t.handler.value, store, t)
  }
}
