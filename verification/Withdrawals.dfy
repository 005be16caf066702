/** `processWithdraw` (modules/service/processing-withdraw.go) with the processor's `Withdraw`
    (modules/service/processor-coreum/withdraw.go) and `TransferFromSending` (processor.go). */
module Withdrawals {
  import opened Transactions
  import opened Ledger

  /** A merchant's wallet record on one blockchain, as far as withdrawals use it. */
  datatype SendingTerms = SendingTerms(fix: real, percent: real, receivingID: string, sendingID: string) {

    /** What the scheduler stores with the transaction. */
    function StoredCommission(amount: real): real {
      fix + amount * percent / 100.0
    }

    /** What the processor adds to the amount when it checks the merchant's balance. */
    function CheckedCommission(amount: real, external: string): real {
      if external != receivingID || external != sendingID then fix + percent / 100.0 * (amount - fix) else 0.0
    }
  }

  /** The processor: its native denom and the addresses of its two wallets. */
  datatype Processor = Processor(native: string, sendingAddress: string, receivingAddress: string) {

    /** The coin the transfers are made in. */
    function PaidCoin(t: Tx): Coin {
      if t.asset == "" then Coin(native, "") else Coin(t.asset, t.issuer)
    }

    /** The coin whose balance is checked: `GetAssetsBalance` appends the issuer only to foreign assets. */
    function CheckedCoin(t: Tx): Coin {
      var asset := if t.asset == "" then native else t.asset;
      if asset == native then Coin(native, "") else Coin(asset, t.issuer)
    }

    function Resolve(address: string): Account {
      if address == sendingAddress then ProcessingSending
      else if address == receivingAddress then ProcessingReceiving
      else Outside(address)
    }
  }

  /** `reput` and `stored`: the outcomes of the two row writes; `reachable`: balance query, key store and gas. */
  datatype CollectAnswer = CollectAnswer(reput: bool, reachable: bool, broadcast: Option<string>, stored: bool)

  datatype PayAnswer = PayAnswer(broadcast: Option<string>, stored: bool)

  /** The state the withdraw pipeline works on.  `collected` and `paid` count the executed transfers for each
      transaction; `unsettled` and `undone` count the row writes that failed after such a transfer. */
  datatype Books = Books(
    rows: seq<Tx>, balance: Balances,
    collected: multiset<nat>, paid: multiset<nat>, unsettled: multiset<nat>, undone: multiset<nat>)

  /** Everything a withdraw phase is configured with. */
  datatype Setting = Setting(merchant: string, blockchain: string, terms: SendingTerms, processor: Processor) {

    function SendingWallet(): Account {
      Wallet(merchant, terms.sendingID)
    }

    function Fundable(b: Balances, t: Tx): bool {
      Bal(b, SendingWallet(), processor.CheckedCoin(t)) as real
      >= t.amount + terms.CheckedCommission(t.amount, t.external)
    }

    predicate Collects(b: Balances, t: Tx, a: CollectAnswer) {
      a.reachable && Fundable(b, t) && a.broadcast.Some?
    }

    /** One iteration of `processWithdrawProcessed`. */
    function CollectRow(w: Books, t: Tx, a: CollectAnswer): Books {
      var commission := terms.StoredCommission(t.amount);
      var w1 := if a.reput then w.(rows := Put(w.rows, KeyOf(t), Process(t.hash1, commission))) else w;
      if !Collects(w.balance, t, a) then w1
      else
        var w2 := w1.(balance := Move(w.balance, SendingWallet(), ProcessingSending, processor.PaidCoin(t),
                                      Trunc(t.amount)),
                      collected := w.collected + multiset{t.guid});
        if a.stored then w2.(rows := Put(w2.rows, KeyOf(t), Settle(a.broadcast.value)))
        else w2.(unsettled := w.unsettled + multiset{t.guid})
    }

    function CollectAll(w: Books, batch: seq<Tx>, answers: nat -> CollectAnswer): Books {
      if batch == [] then w
      else
        var t := batch[|batch| - 1];
        CollectRow(CollectAll(w, batch[..|batch| - 1], answers), t, answers(t.guid))
    }

    /** One iteration of `processWithdrawSettled`. */
    function PayRow(w: Books, t: Tx, a: PayAnswer): Books {
      match a.broadcast
      case None => w
      case Some(hash) =>
        var w1 := w.(balance := Move(w.balance, ProcessingSending, processor.Resolve(t.extWallet),
                                     processor.PaidCoin(t), Trunc(t.amount)),
                     paid := w.paid + multiset{t.guid});
        if a.stored then w1.(rows := Put(w1.rows, KeyOf(t), Finish(hash)))
        else w1.(undone := w.undone + multiset{t.guid})
    }

    function PayAll(w: Books, batch: seq<Tx>, answers: nat -> PayAnswer): Books {
      if batch == [] then w
      else
        var t := batch[|batch| - 1];
        PayRow(PayAll(w, batch[..|batch| - 1], answers), t, answers(t.guid))
    }

    lemma CollectAllStep(w: Books, batch: seq<Tx>, j: nat, answers: nat -> CollectAnswer)
      requires j < |batch|
      ensures CollectAll(w, batch[..j + 1], answers)
           == CollectRow(CollectAll(w, batch[..j], answers), batch[j], answers(batch[j].guid))
    {
      assert batch[..j + 1][..j] == batch[..j];
    }

    lemma PayAllStep(w: Books, batch: seq<Tx>, j: nat, answers: nat -> PayAnswer)
      requires j < |batch|
      ensures PayAll(w, batch[..j + 1], answers)
           == PayRow(PayAll(w, batch[..j], answers), batch[j], answers(batch[j].guid))
    {
      assert batch[..j + 1][..j] == batch[..j];
    }

    function Batch(rows: seq<Tx>, status: Status): seq<Tx> {
      Fetch(rows, Query(merchant, blockchain, Withdraw, status), BATCH_LIMIT)
    }
  }

  /** A failed `PutDoneTransaction` ends the loop. */
  predicate PayHalts(t: Tx, answers: nat -> PayAnswer) {
    answers(t.guid).broadcast.Some? && !answers(t.guid).stored
  }

  /** One past the last payout the loop visits. */
  function PayVisited(batch: seq<Tx>, answers: nat -> PayAnswer, i: nat): (v: nat)
    requires i <= |batch|
    ensures i <= v <= |batch|
    decreases |batch| - i
  {
    if i == |batch| then i else if PayHalts(batch[i], answers) then i + 1 else PayVisited(batch, answers, i + 1)
  }

  class WithdrawService {
    const transactions: TransactionTable
    const chain: Chain
    ghost var collected: multiset<nat>
    ghost var paid: multiset<nat>
    ghost var unsettled: multiset<nat>
    ghost var undone: multiset<nat>

    constructor (transactions: TransactionTable, chain: Chain)
      ensures this.transactions == transactions && this.chain == chain
      ensures collected == paid == unsettled == undone == multiset{}
    {
      this.transactions := transactions;
      this.chain := chain;
      collected, paid, unsettled, undone := multiset{}, multiset{}, multiset{}, multiset{};
    }

    ghost function State(): Books
      reads this, transactions, chain
    {
      Books(transactions.rows, chain.balance, collected, paid, unsettled, undone)
    }

    /** The processor's `Withdraw`: balance check, then merchant sending wallet to processing sending wallet. */
    method Collect(s: Setting, t: Tx, a: CollectAnswer) returns (hash: Option<string>)
      modifies chain, this`collected
      ensures hash == if s.Collects(old(chain.balance), t, a) then a.broadcast else None
      ensures chain.balance == if hash.Some?
                               then Move(old(chain.balance), s.SendingWallet(), ProcessingSending,
                                         s.processor.PaidCoin(t), Trunc(t.amount))
                               else old(chain.balance)
      ensures collected == if hash.Some? then old(collected) + multiset{t.guid} else old(collected)
    {
      var commission := 0.0;
      if t.external != s.terms.receivingID || t.external != s.terms.sendingID {
        commission := s.terms.fix;
        commission := commission + s.terms.percent / 100.0 * (t.amount - commission);
      }
      var held := Bal(chain.balance, s.SendingWallet(), s.processor.CheckedCoin(t));
      if !a.reachable || held as real < t.amount + commission {
        return None;
      }
      hash := chain.Send(s.SendingWallet(), ProcessingSending, s.processor.PaidCoin(t), t.amount, a.broadcast);
      if hash.Some? {
        collected := collected + multiset{t.guid};
      }
    }

    method VisitProcessed(s: Setting, tr: Tx, a: CollectAnswer)
      modifies transactions, chain, this`collected, this`unsettled
      ensures old(transactions.Valid()) ==> transactions.Valid()
      ensures State() == s.CollectRow(old(State()), tr, a)
    {
      var commission := s.terms.StoredCommission(tr.amount);
      transactions.PutProcessedTransaction(KeyOf(tr), tr.hash1, commission, a.reput);
      var hash := Collect(s, tr, a);
      if hash.None? {
        return;
      }
      transactions.PutSettledTransaction(KeyOf(tr), hash.value, a.stored);
      if !a.stored {
        unsettled := unsettled + multiset{tr.guid};
      }
    }

    method ProcessWithdrawProcessed(s: Setting, answers: nat -> CollectAnswer)
      requires transactions.Valid()
      modifies transactions, chain, this`collected, this`unsettled
      ensures transactions.Valid()
      ensures State() == s.CollectAll(old(State()), s.Batch(old(transactions.rows), Processed), answers)
    {
      var fetched := transactions.GetMerchantTrxForProcessingInBlockChain(
        Query(s.merchant, s.blockchain, Withdraw, Processed), BATCH_LIMIT);
      if fetched.NotFound? {
        return;
      }
      var trx := fetched.batch;
      assert trx[..0] == [];
      for j := 0 to |trx|
        invariant transactions.Valid()
        invariant State() == s.CollectAll(old(State()), trx[..j], answers)
      {
        s.CollectAllStep(old(State()), trx, j, answers);
        VisitProcessed(s, trx[j], answers(trx[j].guid));
      }
      assert trx[..|trx|] == trx;
    }

    /** `TransferFromSending` and the row write; `halted` is the early return after a failed write. */
    method VisitSettled(s: Setting, tr: Tx, a: PayAnswer) returns (halted: bool)
      modifies transactions, chain, this`paid, this`undone
      ensures old(transactions.Valid()) ==> transactions.Valid()
      ensures halted <==> a.broadcast.Some? && !a.stored
      ensures State() == s.PayRow(old(State()), tr, a)
    {
      halted := false;
      var hash := chain.Send(ProcessingSending, s.processor.Resolve(tr.extWallet), s.processor.PaidCoin(tr),
                             tr.amount, a.broadcast);
      if hash.Some? {
        paid := paid + multiset{tr.guid};
        transactions.PutDoneTransaction(KeyOf(tr), hash.value, a.stored);
        if !a.stored {
          undone := undone + multiset{tr.guid};
          halted := true;
        }
      }
    }

    method ProcessWithdrawSettled(s: Setting, answers: nat -> PayAnswer)
      requires transactions.Valid()
      modifies transactions, chain, this`paid, this`undone
      ensures transactions.Valid()
      ensures var batch := s.Batch(old(transactions.rows), Settled);
              State() == s.PayAll(old(State()), batch[..PayVisited(batch, answers, 0)], answers)
    {
      var fetched := transactions.GetMerchantTrxForProcessingInBlockChain(
        Query(s.merchant, s.blockchain, Withdraw, Settled), BATCH_LIMIT);
      if fetched.NotFound? {
        return;
      }
      var trx := fetched.batch;
      var j := 0;
      ghost var visited := PayVisited(trx, answers, 0);
      while j < |trx|
        invariant 0 <= j <= |trx|
        invariant transactions.Valid()
        invariant visited == PayVisited(trx, answers, j)
        invariant State() == s.PayAll(old(State()), trx[..j], answers)
      {
        s.PayAllStep(old(State()), trx, j, answers);
        var halted := VisitSettled(s, trx[j], answers(trx[j].guid));
        j := j + 1;
        if halted {
          assert visited == j;
          return;
        }
      }
      assert visited == j;
    }
  }
}
