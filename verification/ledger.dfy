/** The ledger's data model: accounts, transactions, the payment-method and
    state codes, the three settlement strategies and the errors the core
    reports. */
module Ledger {

  /** Go's `uint8` and `uint32`, the widths of ids and requested amounts. */
  const U32Modulus: int := 0x1_0000_0000
  type U8 = x: int | 0 <= x < 0x100
  type U32 = x: int | 0 <= x < 0x1_0000_0000

  datatype Option<+T> = None | Some(value: T)

  /** Payment methods and transaction states are string types in the
      program, so strings other than the named codes can occur. */
  type MethodCode = string
  type StateCode = string

  const CreditCode: MethodCode := "C"
  const DebitCode: MethodCode := "D"
  const CashCode: MethodCode := "S"

  const OpenState: StateCode := "O"
  const ExpiredState: StateCode := "E"
  const ClosedState: StateCode := "C"

  /** An account. Its balance is an unbounded natural here; the program's
      32-bit balance is the subject of module Uint32Overflow. */
  datatype Account = Account(id: U8, balance: nat)

  /** A position in the account store; it stands for a Go `*Account`, so
      two transactions naming the same Ref share one account. */
  type Ref = nat

  /** The settlement strategy a transaction is bound to. */
  datatype Handler = CreditHandler | CashHandler | DebitHandler

  /** A transaction. `handler` is None until a handler is selected. */
  datatype Transaction = Transaction(
    id: U8,
    amount: U32,
    sender: Ref,
    recipient: Ref,
    state: StateCode,
    paymentMethod: MethodCode,
    handler: Option<Handler>)

  datatype Error =
    | HandlerNotFound
    | SelfTransaction
    | AlreadyClosed
    | Expired
    | InsufficientBalance

  datatype Outcome = Pass | Fail(error: Error)

  /** The payment-method code each strategy is selected by. */
  function Code(h: Handler): MethodCode
  {
    match h
    case CreditHandler => CreditCode
    case CashHandler => CashCode
    case DebitHandler => DebitCode
  }

  /** The text the program attaches to each error. */
  function Message(err: Error): string
  {
    match err
    case HandlerNotFound => "Could find a valid handler"
    case SelfTransaction => "One account can't make a transaction to itself"
    case AlreadyClosed => "Can't pay an already closed transaction"
    case Expired => "Transaction expired"
    case InsufficientBalance => "Sender doesn't have enough balance to make transaction"
  }

  /** Both account references of `t` point into `store` (neither is nil). */
  predicate Resolves(store: seq<Account>, t: Transaction)
  {
    t.sender < |store| && t.recipient < |store|
  }

  /** The sum of all balances in the store. */
  function Total(store: seq<Account>): nat
  {
    if |store| == 0 then 0 else store[0].balance + Total(store[1..])
  }
}
