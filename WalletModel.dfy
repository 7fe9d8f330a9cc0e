/** The wallet projection applied to wallet responses. */
module WalletModel {
  import opened Js
  import opened Outcomes

  /** `{ walletId: data.walletId, userId: data.userId, balance: data.balance }`.
      Reading a property of null or undefined throws a TypeError, which is
      `None` here. */
  function CreateWalletModel(data: Value): (r: Option<Record>)
    ensures r.None? <==> data == Null || data == Undefined
    ensures r.Some? ==> |r.value| == 3
    ensures r.Some? ==> Lookup(r.value, "walletId") == Get(data, "walletId")
    ensures r.Some? ==> Lookup(r.value, "userId") == Get(data, "userId")
    ensures r.Some? ==> Lookup(r.value, "balance") == Get(data, "balance")
    ensures r.Some? ==> forall k :: k != "walletId" && k != "userId" && k != "balance" ==> Lookup(r.value, k) == Undefined
  {
    if data == Null || data == Undefined then None
    else
      var props := [("walletId", Get(data, "walletId")), ("userId", Get(data, "userId")), ("balance", Get(data, "balance"))];
      LookupOfThree(props);
      Some(props)
  }

  /** Projecting a projected wallet changes nothing. */
  lemma CreateWalletModelIdempotent(data: Value)
    requires data != Null && data != Undefined
    ensures CreateWalletModel(Obj(CreateWalletModel(data).value)) == CreateWalletModel(data)
  {
  }

  /** The balance a wallet response carries is the balance of the model. */
  lemma BalanceUnaltered(data: Value, balance: int)
    requires data.Obj? && Get(data, "balance") == Num(balance)
    ensures Lookup(CreateWalletModel(data).value, "balance") == Num(balance)
  {
  }
}
