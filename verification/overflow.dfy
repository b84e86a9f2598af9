/** The balance update of `pay` on the program's 32-bit balances. Go's
    unsigned addition wraps modulo 2^32, so a recipient whose balance would
    pass 4294967295 silently loses 2^32 units. The rest of the model uses
    unbounded balances, under which Properties.PayConservesTotal holds. */
module Uint32Overflow {
  import opened Ledger

  const MaxU32: U32 := 0xFFFF_FFFF

  /** The two balance updates of a successful `pay` as written, on uint32
      values: the subtraction cannot wrap, because the balance check has
      already passed, but the addition can. */
  function SettleU32(senderBalance: U32, recipientBalance: U32, e: U32): (r: (U32, U32))
    requires e <= senderBalance
    ensures r.0 + e == senderBalance
    ensures recipientBalance + e < U32Modulus ==> r.1 == recipientBalance + e
    ensures recipientBalance + e >= U32Modulus ==> r.1 == recipientBalance + e - U32Modulus
    ensures r.0 + r.1 == senderBalance + recipientBalance <==> recipientBalance + e < U32Modulus
  {
    (senderBalance - e, (recipientBalance + e) % U32Modulus)
  }

  /** Paying one unit to an account holding the largest uint32 balance
      leaves it at zero: 4294967295 units vanish from the ledger. */
  lemma RecipientWrapLosesValue()
    ensures SettleU32(10, MaxU32, 1) == (9, 0)
    ensures 9 + 0 != 10 + MaxU32
  {
  }
}
