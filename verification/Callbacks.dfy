/** `makeDepositCallback` (modules/service/processing.go): an observed balance becomes a new deposit for the part
    that `init` deposits of the user do not cover yet. */
module Callbacks {
  import opened Transactions
  import opened Ledger
  import opened Sums

  datatype User = User(merchant: string, external: string, blockchain: string)

  /** The wallet ids of a merchant on the observed blockchain. */
  datatype WalletIds = WalletIds(receivingID: string, sendingID: string)

  /** What the callback finds: no processor, no merchant, or the merchant with or without a wallet there. */
  datatype Lookup = NoProcessor | NoMerchant | Merchant(wallet: Option<WalletIds>)

  predicate Accepts(l: Lookup, external: string) {
    l.Merchant? && (l.wallet.Some? ==> l.wallet.value.sendingID != external && l.wallet.value.receivingID != external)
  }

  datatype Observation = Observation(
    guid: nat, user: User, extWallet: string, hash: string, asset: string, issuer: string, amount: real)

  function InitW(u: User): Tx -> real {
    (t: Tx) => if IsInitiated(t, u.merchant, u.external, u.blockchain, Deposit) then t.amount else 0.0
  }

  /** The total of the user's `init` deposits. */
  function InitTotal(rows: seq<Tx>, u: User): real {
    Sum(rows, InitW(u))
  }

  function NewDeposit(o: Observation, amount: real): Tx {
    Tx(o.guid, o.user.merchant, o.user.external, o.user.blockchain, Deposit, o.extWallet, Init,
       o.asset, o.issuer, amount, 0.0, o.hash, "", "", "")
  }

  /** The table after an accepted callback whose row, if any, can be inserted. */
  function Observe(rows: seq<Tx>, o: Observation): seq<Tx> {
    var rest := o.amount - InitTotal(rows, o.user);
    if rest > 0.0 then rows + [NewDeposit(o, rest)] else rows
  }

  /** The table after any callback. */
  function Called(rows: seq<Tx>, lookup: Lookup, o: Observation, stored: bool): seq<Tx> {
    if Accepts(lookup, o.user.external) && stored && (forall t :: t in rows ==> t.guid != o.guid) then Observe(rows, o)
    else rows
  }

  function Amounts(): Tx -> real {
    (t: Tx) => t.amount
  }

  lemma {:induction false} FetchedTotal(rows: seq<Tx>, u: User)
    ensures Sum(Initiated(rows, u.merchant, u.external, u.blockchain, Deposit), Amounts()) == InitTotal(rows, u)
  {
    if rows != [] {
      var n := |rows| - 1;
      FetchedTotal(rows[..n], u);
      var before := Initiated(rows[..n], u.merchant, u.external, u.blockchain, Deposit);
      if IsInitiated(rows[n], u.merchant, u.external, u.blockchain, Deposit) {
        SumAppend(before, rows[n], Amounts());
      } else {
        assert before + [] == before;
      }
    }
  }

  lemma CalledCreates(rows: seq<Tx>, lookup: Lookup, o: Observation, stored: bool, created: bool)
    requires Accepts(lookup, o.user.external) && o.amount > InitTotal(rows, o.user)
    requires created <==> stored && forall t :: t in rows ==> t.guid != o.guid
    ensures Called(rows, lookup, o, stored)
         == if created then rows + [NewDeposit(o, o.amount - InitTotal(rows, o.user))] else rows
  {
  }

  class DepositCallback {
    const transactions: TransactionTable

    constructor (transactions: TransactionTable)
      ensures this.transactions == transactions
    {
      this.transactions := transactions;
    }

    method TotalOf(trx: seq<Tx>) returns (total: real)
      ensures total == Sum(trx, Amounts())
    {
      total := 0.0;
      assert trx[..0] == [];
      for i := 0 to |trx|
        invariant total == Sum(trx[..i], Amounts())
      {
        SumAppend(trx[..i], trx[i], Amounts());
        assert trx[..i] + [trx[i]] == trx[..i + 1];
        total := total + trx[i].amount;
      }
      assert trx[..|trx|] == trx;
    }

    method Call(lookup: Lookup, o: Observation, stored: bool)
      modifies transactions
      ensures old(transactions.Valid()) ==> transactions.Valid()
      ensures transactions.rows == Called(old(transactions.rows), lookup, o, stored)
    {
      if !lookup.Merchant? {
        return;
      }
      if lookup.wallet.Some? {
        var wallet := lookup.wallet.value;
        if wallet.sendingID == o.user.external || wallet.receivingID == o.user.external {
          return;
        }
      }
      var fetched := transactions.GetInitTransactions(o.user.merchant, o.user.external, o.user.blockchain, Deposit);
      var trx := if fetched.Found? then fetched.batch else [];
      var processingAmount := TotalOf(trx);
      FetchedTotal(transactions.rows, o.user);
      var amount := o.amount - processingAmount;
      if amount <= 0.0 {
        return;
      }
      ghost var was := transactions.rows;
      var created := transactions.CreateTransaction(o.guid, o.user.merchant, o.user.external, o.user.blockchain,
                                                    Deposit, o.extWallet, o.hash, o.asset, o.issuer, amount, 0.0,
                                                    stored);
      CalledCreates(was, lookup, o, stored, created);
    }
  }

  /** A callback inserts nothing without a processor, without a merchant, for one of the merchant's own two wallets, for
      a balance that is covered already, or if the row cannot be written; and otherwise a fresh deposit of the rest. */
  lemma CalledRows(rows: seq<Tx>, lookup: Lookup, o: Observation, stored: bool)
    ensures var own := lookup.Merchant? && lookup.wallet.Some?
                       && o.user.external in [lookup.wallet.value.sendingID, lookup.wallet.value.receivingID];
            var unused := forall t :: t in rows ==> t.guid != o.guid;
            Called(rows, lookup, o, stored)
            == if lookup.NoProcessor? || lookup.NoMerchant? || own || !stored || !unused
                  || o.amount <= InitTotal(rows, o.user) then rows
               else rows + [Tx(o.guid, o.user.merchant, o.user.external, o.user.blockchain, Deposit, o.extWallet, Init,
                               o.asset, o.issuer, o.amount - InitTotal(rows, o.user), 0.0, o.hash, "", "", "")]
  {
  }

  // The algebra of callbacks.

  function Max(x: real, y: real): real {
    if x >= y then x else y
  }

  /** A callback makes the user's total the maximum of the old total and the observed amount, and leaves the
      totals of all other users alone. */
  lemma ObserveIsMax(rows: seq<Tx>, o: Observation, u: User)
    ensures InitTotal(Observe(rows, o), u)
         == if u == o.user then Max(InitTotal(rows, u), o.amount) else InitTotal(rows, u)
  {
    var rest := o.amount - InitTotal(rows, o.user);
    if rest > 0.0 {
      SumAppend(rows, NewDeposit(o, rest), InitW(u));
    }
  }

  function ObserveAll(rows: seq<Tx>, os: seq<Observation>): seq<Tx> {
    if os == [] then rows else Observe(ObserveAll(rows, os[..|os| - 1]), os[|os| - 1])
  }

  /** Any sequence of callbacks without a scheduler step in between yields the maximum of the old total and all
      amounts observed for the user, so their order does not matter. */
  lemma {:induction false} ObserveAllIsMax(rows: seq<Tx>, os: seq<Observation>, u: User)
    ensures var total := InitTotal(ObserveAll(rows, os), u);
            && total >= InitTotal(rows, u)
            && (forall k :: 0 <= k < |os| && os[k].user == u ==> total >= os[k].amount)
            && (total == InitTotal(rows, u) || exists k :: 0 <= k < |os| && os[k].user == u && total == os[k].amount)
  {
    if os != [] {
      var n := |os| - 1;
      ObserveAllIsMax(rows, os[..n], u);
      ObserveIsMax(ObserveAll(rows, os[..n]), os[n], u);
      var total := InitTotal(ObserveAll(rows, os), u);
      if total != InitTotal(rows, u) {
        if total == InitTotal(ObserveAll(rows, os[..n]), u) {
          var k :| 0 <= k < n && os[..n][k].user == u && total == os[..n][k].amount;
          assert os[k].user == u && total == os[k].amount;
        } else {
          assert os[n].user == u && total == os[n].amount;
        }
      }
      forall k | 0 <= k < |os| && os[k].user == u ensures total >= os[k].amount {
        assert k < n ==> os[..n][k] == os[k];
      }
    }
  }

  lemma CallbackOrderIsIrrelevant(rows: seq<Tx>, os: seq<Observation>, os': seq<Observation>, u: User)
    requires forall k :: 0 <= k < |os| ==> os[k] in os'
    requires forall k :: 0 <= k < |os'| ==> os'[k] in os
    ensures InitTotal(ObserveAll(rows, os), u) == InitTotal(ObserveAll(rows, os'), u)
  {
    ObserveAllIsMax(rows, os, u);
    ObserveAllIsMax(rows, os', u);
  }

  /** Repeating a callback creates nothing. */
  lemma RepeatedCallbackIsIdle(rows: seq<Tx>, o: Observation, again: Observation)
    requires again.user == o.user && again.amount <= o.amount
    ensures Observe(Observe(rows, o), again) == Observe(rows, o)
  {
    ObserveIsMax(rows, o, o.user);
  }
}
