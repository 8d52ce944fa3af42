/** `getBalanceMeta` (helper/groups.ts): how a group balance is labelled on screen. */
module GroupHelpers {
  import opened Types

  /** The colour class and caption (`label`) of a balance; the formatted amount text is not modelled. */
  datatype BalanceMeta = BalanceMeta(colorClass: string, caption: string)

  const Green := "text-green-600"
  const Red := "text-red-600"
  const OwedLabel := "You are owed money"
  const OweLabel := "You owe money"
  const SettledLabel := "You are all settled up"

  /** Three guarded returns: positive, then negative, then settled. */
  function GetBalanceMeta(balance: Money): (r: BalanceMeta)
    ensures r.colorClass == Green <==> balance > 0
    ensures r.caption == OwedLabel <==> balance > 0
    ensures r.colorClass == Red <==> balance < 0
    ensures r.caption == OweLabel <==> balance < 0
    ensures r.colorClass == "" <==> balance == 0
    ensures r.caption == SettledLabel <==> balance == 0
  {
    if balance > 0 then BalanceMeta(Green, OwedLabel)
    else if balance < 0 then BalanceMeta(Red, OweLabel)
    else BalanceMeta("", SettledLabel)
  }

  /** Every balance gets one of the three metas, with colour and caption agreeing. */
  lemma BalanceMetaExhaustive(balance: Money)
    ensures GetBalanceMeta(balance) in {BalanceMeta(Green, OwedLabel), BalanceMeta(Red, OweLabel), BalanceMeta("", SettledLabel)}
  {
  }

  /** The meta depends only on the sign of the balance. */
  lemma BalanceMetaBySign(a: Money, b: Money)
    ensures (a > 0 <==> b > 0) && (a < 0 <==> b < 0) ==> GetBalanceMeta(a) == GetBalanceMeta(b)
  {
  }
}
