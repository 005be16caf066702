/** `processDeposit` (modules/service/processing-deposit.go): one pass of the three deposit phases for one
    merchant and blockchain.  What the outside world answers is an input, indexed by transaction. */
module Deposits {
  import opened Transactions
  import opened Ledger
  import opened Settlement

  datatype Pair = Pair(merchant: string, blockchain: string)

  datatype ChainStatus = NoTransaction | Pending | Failed | Successful

  /** `transfer` is the answer to the transfer to the receiving wallet, `landed` whether it will move the funds
      (a broadcast that is accepted but fails later moves nothing), `status` the answer to a status query and
      `stored` whether the row could be written. */
  datatype InitAnswer = InitAnswer(transfer: Option<string>, landed: bool, status: ChainStatus, stored: bool)

  datatype DoneAnswer = DoneAnswer(status: ChainStatus, stored: bool)

  datatype DepositAnswers = DepositAnswers(init: nat -> InitAnswer, settle: Answers, done: nat -> DoneAnswer)

  function InitEdit(t: Tx, a: InitAnswer): seq<Edit> {
    if !a.stored then []
    else if t.hash2 == "" then
      match a.transfer
      case None => []
      case Some(hash) => [Pend(hash)]
    else if a.status == Successful then [Process(t.hash2, 0.0)]
    else if a.status == Failed then [Pend("")]
    else []
  }

  function InitEdits(answers: nat -> InitAnswer): Tx -> seq<Edit> {
    (t: Tx) => InitEdit(t, answers(t.guid))
  }

  function DoneEdit(t: Tx, a: DoneAnswer): seq<Edit> {
    if t.hash3 == "" || !a.stored then []
    else if a.status == Successful then [Finish("")]
    else if a.status == Failed then [Settle("")]
    else []
  }

  function DoneEdits(answers: nat -> DoneAnswer): Tx -> seq<Edit> {
    (t: Tx) => DoneEdit(t, answers(t.guid))
  }

  predicate Lands(t: Tx, a: InitAnswer) {
    t.hash2 == "" && a.transfer.Some? && a.landed
  }

  /** The balances after the transfers to the receiving wallet for a batch. */
  function Gather(b: Balances, batch: seq<Tx>, answers: nat -> InitAnswer): Balances {
    if batch == [] then b
    else
      var t := batch[|batch| - 1];
      var b' := Gather(b, batch[..|batch| - 1], answers);
      if Lands(t, answers(t.guid)) then
        Move(b', Wallet(t.merchant, t.external), ProcessingReceiving, Coin(t.asset, t.issuer), Trunc(t.amount))
      else b'
  }

  lemma GatherStep(b: Balances, batch: seq<Tx>, j: nat, answers: nat -> InitAnswer)
    requires j < |batch|
    ensures var t, b' := batch[j], Gather(b, batch[..j], answers);
            Gather(b, batch[..j + 1], answers)
            == if Lands(t, answers(t.guid)) then
                 Move(b', Wallet(t.merchant, t.external), ProcessingReceiving, Coin(t.asset, t.issuer), Trunc(t.amount))
               else b'
  {
    assert batch[..j + 1][..j] == batch[..j];
  }

  function DepositBatch(rows: seq<Tx>, p: Pair, status: Status): seq<Tx> {
    Fetch(rows, Query(p.merchant, p.blockchain, Deposit, status), BATCH_LIMIT)
  }

  function InitPhase(rows: seq<Tx>, p: Pair, answers: nat -> InitAnswer): seq<Tx> {
    Puts(rows, DepositBatch(rows, p, Init), InitEdits(answers))
  }

  function SettlePhase(rows: seq<Tx>, p: Pair, terms: Terms, answers: Answers): seq<Tx> {
    Settlement(DepositBatch(rows, p, Processed), terms, answers).Outcome(rows)
  }

  function DonePhase(rows: seq<Tx>, p: Pair, answers: nat -> DoneAnswer): seq<Tx> {
    Puts(rows, DepositBatch(rows, p, Settled), DoneEdits(answers))
  }

  function DepositPass(rows: seq<Tx>, p: Pair, terms: Terms, a: DepositAnswers): seq<Tx> {
    DonePhase(SettlePhase(InitPhase(rows, p, a.init), p, terms, a.settle), p, a.done)
  }

  /** The balances after a pass: transfers to the receiving wallet, then transfers to the merchant's account `to`. */
  function DepositBalances(rows: seq<Tx>, b: Balances, p: Pair, to: Account, terms: Terms, a: DepositAnswers): Balances
  {
    var gathered := Gather(b, DepositBatch(rows, p, Init), a.init);
    var s := Settlement(DepositBatch(InitPhase(rows, p, a.init), p, Processed), terms, a.settle);
    s.Disburse(gathered, to, s.VisitedFrom(0))
  }

  class DepositService {
    const transactions: TransactionTable
    const chain: Chain
    const settlement: SettlementService

    constructor (transactions: TransactionTable, chain: Chain)
      ensures this.transactions == transactions && this.chain == chain
      ensures Valid()
    {
      this.transactions := transactions;
      this.chain := chain;
      this.settlement := new SettlementService(transactions, chain);
    }

    ghost predicate Valid() {
      settlement.transactions == transactions && settlement.chain == chain
    }

    method TransferToReceiving(t: Tx, a: InitAnswer) returns (hash: Option<string>)
      modifies chain
      ensures hash == a.transfer
      ensures chain.balance == if a.transfer.Some? && a.landed
                               then Move(old(chain.balance), Wallet(t.merchant, t.external), ProcessingReceiving,
                                         Coin(t.asset, t.issuer), Trunc(t.amount))
                               else old(chain.balance)
    {
      hash := a.transfer;
      if a.landed {
        hash := chain.Send(Wallet(t.merchant, t.external), ProcessingReceiving, Coin(t.asset, t.issuer), t.amount,
                           a.transfer);
      }
    }

    method ProcessDepositInitiated(p: Pair, answers: nat -> InitAnswer)
      requires Valid() && transactions.Valid()
      modifies transactions, chain
      ensures transactions.Valid()
      ensures transactions.rows == InitPhase(old(transactions.rows), p, answers)
      ensures chain.balance == Gather(old(chain.balance), DepositBatch(old(transactions.rows), p, Init), answers)
    {
      var fetched := transactions.GetMerchantTrxForProcessingInBlockChain(
        Query(p.merchant, p.blockchain, Deposit, Init), BATCH_LIMIT);
      if fetched.NotFound? {
        return;
      }
      var trx := fetched.batch;
      assert trx[..0] == [];
      for j := 0 to |trx|
        invariant transactions.Valid()
        invariant transactions.rows == Puts(old(transactions.rows), trx[..j], InitEdits(answers))
        invariant chain.balance == Gather(old(chain.balance), trx[..j], answers)
      {
        var tr, a := trx[j], answers(trx[j].guid);
        PutsStep(old(transactions.rows), trx, InitEdits(answers), j);
        GatherStep(old(chain.balance), trx, j, answers);
        if tr.hash2 == "" {
          var hash := TransferToReceiving(tr, a);
          if hash.None? {
            continue;
          }
          PutAllOne(transactions.rows, KeyOf(tr), Pend(hash.value));
          transactions.PutInitiatedPendingTransaction(KeyOf(tr), hash.value, a.stored);
        } else if a.status == Successful {
          PutAllOne(transactions.rows, KeyOf(tr), Process(tr.hash2, 0.0));
          transactions.PutProcessedTransaction(KeyOf(tr), tr.hash2, 0.0, a.stored);
        } else if a.status == Failed {
          // without a hash the next pass transfers anew
          PutAllOne(transactions.rows, KeyOf(tr), Pend(""));
          transactions.PutInitiatedPendingTransaction(KeyOf(tr), "", a.stored);
        }
      }
      assert trx[..|trx|] == trx;
    }

    method ProcessDepositSettled(p: Pair, answers: nat -> DoneAnswer)
      requires Valid() && transactions.Valid()
      modifies transactions
      ensures transactions.Valid()
      ensures transactions.rows == DonePhase(old(transactions.rows), p, answers)
    {
      var fetched := transactions.GetMerchantTrxForProcessingInBlockChain(
        Query(p.merchant, p.blockchain, Deposit, Settled), BATCH_LIMIT);
      if fetched.NotFound? {
        return;
      }
      var trx := fetched.batch;
      assert trx[..0] == [];
      for j := 0 to |trx|
        invariant transactions.Valid()
        invariant transactions.rows == Puts(old(transactions.rows), trx[..j], DoneEdits(answers))
      {
        var tr, a := trx[j], answers(trx[j].guid);
        PutsStep(old(transactions.rows), trx, DoneEdits(answers), j);
        if tr.hash3 != "" {
          if a.status == Successful {
            PutAllOne(transactions.rows, KeyOf(tr), Finish(""));
            transactions.PutDoneTransaction(KeyOf(tr), "", a.stored);
          } else if a.status == Failed {
            PutAllOne(transactions.rows, KeyOf(tr), Settle(""));
            transactions.PutSettledTransaction(KeyOf(tr), "", a.stored);
          }
        }
      }
      assert trx[..|trx|] == trx;
    }

    method ProcessDeposit(p: Pair, to: Account, terms: Terms, a: DepositAnswers)
      requires Valid() && transactions.Valid()
      modifies transactions, chain
      ensures transactions.Valid()
      ensures transactions.rows == DepositPass(old(transactions.rows), p, terms, a)
      ensures chain.balance == DepositBalances(old(transactions.rows), old(chain.balance), p, to, terms, a)
    {
      ProcessDepositInitiated(p, a.init);
      settlement.ProcessDepositProcessed(p.merchant, p.blockchain, to, terms, a.settle);
      ProcessDepositSettled(p, a.done);
    }
  }
}
