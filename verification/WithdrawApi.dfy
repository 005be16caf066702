/** The API calls on withdrawals (modules/service/service.go). */
module WithdrawApi {
  import opened Transactions
  import opened Ledger
  import opened Withdrawals
  import opened Merchants
  import Scheduler

  class WithdrawRequests {
    const transactions: TransactionTable
    const merchants: MerchantStore
    const blockchain: string

    constructor (transactions: TransactionTable, merchants: MerchantStore, blockchain: string)
      ensures this.transactions == transactions && this.merchants == merchants && this.blockchain == blockchain
    {
      this.transactions := transactions;
      this.merchants := merchants;
      this.blockchain := blockchain;
    }

    /** A new withdrawal, for a merchant with a wallet on the processor's blockchain. */
    method InitWithdraw(guid: nat, merchant: string, external: string, blockchain: string, address: string,
                        asset: string, issuer: string, amount: real, stored: bool)
      returns (ok: bool)
      modifies transactions
      ensures old(transactions.Valid()) ==> transactions.Valid()
      ensures ok <==> && blockchain == this.blockchain && merchant in merchants.records
                      && blockchain in merchants.records[merchant].wallets
                      && stored && forall t :: t in old(transactions.rows) ==> t.guid != guid
      ensures transactions.rows
           == if ok then old(transactions.rows) + [Tx(guid, merchant, external, blockchain, Withdraw, address, Init,
                                                      asset, issuer, amount, 0.0, "", "", "", "")]
              else old(transactions.rows)
    {
      if blockchain != this.blockchain {
        return false;
      }
      var merchData := merchants.GetMerchantData(merchant);
      if merchData.None? || blockchain !in merchData.value.wallets {
        return false;
      }
      ok := transactions.CreateTransaction(guid, merchant, external, blockchain, Withdraw, address, "", asset, issuer,
                                           amount, 0.0, stored);
    }

    static method CommissionOf(wallet: Scheduler.Wallets, amount: real) returns (commission: real)
      ensures commission == wallet.sending.Charge(amount)
    {
      commission := amount * wallet.sending.percent / 100.0 + wallet.sending.fix;
    }

    /** Writes the row as processed, whatever its status, with the commission that the scheduler stores too. */
    method UpdateWithdraw(guid: nat, merchant: string, external: string, hash: string, stored: bool) returns (ok: bool)
      modifies transactions
      ensures old(transactions.Valid()) ==> transactions.Valid()
      ensures var s, records := WithGuid(old(transactions.rows), merchant, guid), old(merchants.records);
              && (ok <==> && stored && |s| == 1 && merchant in records
                          && s[0].blockchain in records[merchant].wallets)
              && transactions.rows
                 == if !ok then old(transactions.rows)
                    else
                      var rule := records[merchant].wallets[s[0].blockchain].sending;
                      Put(old(transactions.rows), Key(guid, merchant, external),
                          Process(hash, rule.Charge(s[0].amount)))
    {
      var merchData := merchants.GetMerchantData(merchant);
      if merchData.None? {
        return false;
      }
      var found := transactions.GetTransactionByGuid(merchant, guid);
      if found.NotFound? || found.batch[0].blockchain !in merchData.value.wallets {
        return false;
      }
      var transaction := found.batch[0];
      var wallet := merchData.value.wallets[transaction.blockchain];
      var commission := CommissionOf(wallet, transaction.amount);
      transactions.PutProcessedTransaction(Key(guid, merchant, external), hash, commission, stored);
      ok := stored;
    }

    method DeleteWithdraw(guid: nat, merchant: string, external: string, stored: bool) returns (ok: bool)
      modifies transactions
      ensures old(transactions.Valid()) ==> transactions.Valid()
      ensures ok == stored
      ensures transactions.rows == if ok then Put(old(transactions.rows), Key(guid, merchant, external), Reject)
                                   else old(transactions.rows)
    {
      transactions.RejectTransaction(Key(guid, merchant, external), stored);
      ok := stored;
    }
  }
}
