/** From what a wallet holds to the deposit that credits it: the deposit stream, the merchants' records and the callback
    together. */
module CallbackTheorems {
  import opened Transactions
  import opened Ledger
  import opened Strings
  import opened Callbacks
  import DepositStream
  import KeyStore
  import Merchants

  /** What the callback finds for a merchant, when the one processor is that of `chain`. */
  function LookupOf(chain: string, m: Merchants.Records, merchant: string, blockchain: string): Lookup {
    if blockchain != chain then NoProcessor
    else if merchant !in m then NoMerchant
    else if blockchain !in m[merchant].wallets then Merchant(None)
    else
      var w := m[merchant].wallets[blockchain];
      Merchant(Some(WalletIds(w.receivingID, w.sendingID)))
  }

  /** The call that the stream makes for a report. */
  function CallFor(p: DepositStream.Report, chain: string, guid: nat): Observation {
    Observation(guid, User(p.merchant, p.external, chain), p.wallet, "", p.balance.asset, p.balance.issuer,
                p.balance.amount)
  }

  /** Whatever requests the merchants have made, a report of a wallet that is not internal brings the total of its
      user's `init` deposits to the reported amount, if that is more, and leaves every other user's alone. */
  lemma ReportIsCredited(ops: seq<Merchants.Op>, chain: string, p: DepositStream.Report, rows: seq<Tx>, guid: nat,
                         u: User)
    requires p.merchant in Merchants.Run(map[], ops) && !Contains(p.external, p.merchant)
    requires forall t :: t in rows ==> t.guid != guid
    ensures var o, m := CallFor(p, chain, guid), Merchants.Run(map[], ops);
            var rows' := Called(rows, LookupOf(chain, m, p.merchant, chain), o, true);
            InitTotal(rows', u)
            == if u == User(p.merchant, p.external, chain) && p.balance.amount > InitTotal(rows, u)
               then p.balance.amount else InitTotal(rows, u)
  {
    Merchants.ReachableIdsAreOwn(ops);
    PrefixIsContained(p.merchant, "-R");
    PrefixIsContained(p.merchant, "-S");
    ObserveIsMax(rows, CallFor(p, chain, guid), u);
  }

  /** So what a wallet holds of a foreign denom is credited, once the stream visits it. */
  lemma HeldDenomIsCredited(ops: seq<Merchants.Op>, chain: string, r: KeyStore.Record, held: seq<(string, nat)>,
                            native: string, i: nat, rows: seq<Tx>, guid: nat) returns (p: DepositStream.Report)
    requires r.merchant in Merchants.Run(map[], ops) && !Contains(r.external, r.merchant)
    requires DepositStream.Scannable(held, native) && i < |held| && held[i].0 != native && held[i].1 > 0
    requires Split(held[i].0, '-')[0] != native
    requires forall t :: t in rows ==> t.guid != guid
    ensures p in DepositStream.ReportsOf(r, DepositStream.ScannedBalances(held, native), native)
    ensures var o, m, u := CallFor(p, chain, guid), Merchants.Run(map[], ops), User(r.merchant, r.external, chain);
            InitTotal(Called(rows, LookupOf(chain, m, r.merchant, chain), o, true), u)
            == Max(InitTotal(rows, u), held[i].1 as real)
  {
    p := DepositStream.HeldDenomIsReported(r, held, native, i);
    ReportIsCredited(ops, chain, p, rows, guid, User(r.merchant, r.external, chain));
  }

  /** Nothing is credited without a processor, without a merchant, or to one of the merchant's own two wallets. */
  lemma OthersAreNotCredited(ops: seq<Merchants.Op>, chain: string, o: Observation, rows: seq<Tx>, stored: bool)
    requires var m, merchant, blockchain := Merchants.Run(map[], ops), o.user.merchant, o.user.blockchain;
             || blockchain != chain || merchant !in m
             || (blockchain in m[merchant].wallets && o.user.external in [merchant + "-R", merchant + "-S"])
    ensures var m := Merchants.Run(map[], ops);
            Called(rows, LookupOf(chain, m, o.user.merchant, o.user.blockchain), o, stored) == rows
  {
    Merchants.ReachableIdsAreOwn(ops);
  }
}
