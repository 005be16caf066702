/** `processTransaction` (modules/service/processing.go): one tick over all merchants and their wallets. */
module Scheduler {
  import opened Transactions
  import opened Ledger
  import opened Settlement
  import opened Deposits
  import opened Withdrawals
  import opened Passes
  import opened Strings

  datatype Commission = Commission(fix: real, percent: real) {
    function Charge(amount: real): real {
      fix + amount * percent / 100.0
    }
  }

  datatype Wallets = Wallets(receiving: Commission, sending: Commission, receivingID: string, sendingID: string)

  /** A stored merchant; `Unreadable` is a record that does not unmarshal.  The wallets are listed in the order
      in which the map happens to be iterated. */
  datatype MerchantRecord = Unreadable | Readable(id: string, wallets: seq<(string, Wallets)>)

  /** The one processor of the service; `shared` are the users whose wallets are multi-signature. */
  datatype Config = Config(blockchain: string, minimum: real, processor: Processor, shared: set<(string, string)>) {

    /** Where `TransferFromReceiving` sends to: the wallet address inside the stored wallet, not the address it is
        stored under. They differ for a multi-signature wallet. */
    function Payee(merchant: string, external: string): Account {
      if (merchant, external) in shared then OwnKey(merchant, external) else Wallet(merchant, external)
    }
  }

  datatype PassAnswers = PassAnswers(deposit: DepositAnswers, collect: nat -> CollectAnswer, pay: nat -> PayAnswer)

  /** A wallet that the tick works on. */
  datatype Job = Job(merchant: string, wallets: Wallets) {
    function PairOf(c: Config): Pair {
      Pair(merchant, c.blockchain)
    }

    function PayeeOf(c: Config): Account {
      c.Payee(merchant, wallets.receivingID)
    }

    function TermsOf(c: Config): Terms {
      Terms(wallets.receiving.Charge, c.minimum)
    }

    function SettingOf(c: Config): Setting {
      Setting(merchant, c.blockchain,
              SendingTerms(wallets.sending.fix, wallets.sending.percent, wallets.receivingID, wallets.sendingID),
              c.processor)
    }
  }

  function JobsOfMerchant(c: Config, id: string, wallets: seq<(string, Wallets)>): seq<Job> {
    if wallets == [] then []
    else
      var last := wallets[|wallets| - 1];
      JobsOfMerchant(c, id, wallets[..|wallets| - 1])
      + (if ToLower(last.0) == c.blockchain then [Job(id, last.1)] else [])
  }

  function Jobs(c: Config, merchants: seq<MerchantRecord>): seq<Job> {
    if merchants == [] then []
    else
      var last := merchants[|merchants| - 1];
      Jobs(c, merchants[..|merchants| - 1])
      + (match last case Unreadable => [] case Readable(id, wallets) => JobsOfMerchant(c, id, wallets))
  }

  function DepositBooks(c: Config, job: Job, w: Books, a: DepositAnswers): Books {
    var p, terms := job.PairOf(c), job.TermsOf(c);
    w.(rows := DepositPass(w.rows, p, terms, a),
       balance := DepositBalances(w.rows, w.balance, p, job.PayeeOf(c), terms, a))
  }

  function WithdrawBooks(c: Config, job: Job, w: Books, a: PassAnswers): Books {
    var s := job.SettingOf(c);
    var collected := s.CollectAll(w, s.Batch(w.rows, Processed), a.collect);
    var batch := s.Batch(collected.rows, Settled);
    s.PayAll(collected, batch[..PayVisited(batch, a.pay, 0)], a.pay)
  }

  function JobBooks(c: Config, job: Job, w: Books, a: PassAnswers): Books {
    WithdrawBooks(c, job, DepositBooks(c, job, w, a.deposit), a)
  }

  function Fold<S, J>(jobs: seq<J>, s: S, step: (S, J) -> S): S {
    if jobs == [] then s else step(Fold(jobs[..|jobs| - 1], s, step), jobs[|jobs| - 1])
  }

  lemma SplitLast<T>(s: seq<T>)
    requires s != []
    ensures s == s[..|s| - 1] + [s[|s| - 1]]
  {
  }

  lemma {:induction false} FoldConcat<S, J>(jobs: seq<J>, more: seq<J>, s: S, step: (S, J) -> S)
    ensures Fold(jobs + more, s, step) == Fold(more, Fold(jobs, s, step), step)
  {
    if more == [] {
      assert jobs + more == jobs;
    } else {
      var n := |more| - 1;
      assert (jobs + more)[..|jobs| + n] == jobs + more[..n];
      FoldConcat(jobs, more[..n], s, step);
    }
  }

  lemma FoldAppend<S, J>(jobs: seq<J>, job: J, s: S, step: (S, J) -> S)
    ensures Fold(jobs + [job], s, step) == step(Fold(jobs, s, step), job)
  {
    assert (jobs + [job])[..|jobs|] == jobs;
  }

  function JobStep(c: Config, answers: Pair -> PassAnswers): (Books, Job) -> Books {
    (w: Books, job: Job) => JobBooks(c, job, w, answers(job.PairOf(c)))
  }

  lemma JobsOfMerchantStep(c: Config, id: string, wallets: seq<(string, Wallets)>, j: nat)
    requires j < |wallets|
    ensures var jobs := JobsOfMerchant(c, id, wallets[..j]);
            JobsOfMerchant(c, id, wallets[..j + 1])
            == if ToLower(wallets[j].0) == c.blockchain then jobs + [Job(id, wallets[j].1)] else jobs
  {
    assert wallets[..j + 1][..j] == wallets[..j];
  }

  lemma JobsStep(c: Config, merchants: seq<MerchantRecord>, i: nat)
    requires i < |merchants|
    ensures Jobs(c, merchants[..i + 1])
         == Jobs(c, merchants[..i]) + (match merchants[i]
                                       case Unreadable => []
                                       case Readable(id, wallets) => JobsOfMerchant(c, id, wallets))
  {
    assert merchants[..i + 1][..i] == merchants[..i];
  }

  // A wallet under the processor's name, however that is capitalised, has a job.

  lemma {:induction false} WalletHasJob(c: Config, id: string, wallets: seq<(string, Wallets)>, j: nat)
    requires j < |wallets| && ToLower(wallets[j].0) == c.blockchain
    ensures Job(id, wallets[j].1) in JobsOfMerchant(c, id, wallets)
  {
    var n := |wallets| - 1;
    if j < n {
      WalletHasJob(c, id, wallets[..n], j);
    }
  }

  lemma {:induction false} MerchantHasJobs(c: Config, merchants: seq<MerchantRecord>, i: nat, job: Job)
    requires i < |merchants| && merchants[i].Readable?
    requires job in JobsOfMerchant(c, merchants[i].id, merchants[i].wallets)
    ensures job in Jobs(c, merchants)
  {
    var n := |merchants| - 1;
    if i < n {
      assert merchants[..n][i] == merchants[i];
      MerchantHasJobs(c, merchants[..n], i, job);
    }
  }

  /** So a merchant with a wallet under the processor's own name, if that has no capitals, has a job for it. */
  lemma OwnNameHasJob(c: Config, merchants: seq<MerchantRecord>, i: nat, j: nat)
    requires i < |merchants| && merchants[i].Readable? && j < |merchants[i].wallets|
    requires merchants[i].wallets[j].0 == c.blockchain
    requires forall k :: 0 <= k < |c.blockchain| ==> !('A' <= c.blockchain[k] <= 'Z')
    ensures Job(merchants[i].id, merchants[i].wallets[j].1) in Jobs(c, merchants)
  {
    OthersStay(c.blockchain);
    WalletHasJob(c, merchants[i].id, merchants[i].wallets, j);
    MerchantHasJobs(c, merchants, i, Job(merchants[i].id, merchants[i].wallets[j].1));
  }

  class ProcessingService {
    const config: Config
    const transactions: TransactionTable
    const chain: Chain
    const deposits: DepositService
    const withdrawals: WithdrawService

    constructor (config: Config, transactions: TransactionTable, chain: Chain)
      ensures Valid() && this.config == config && this.transactions == transactions && this.chain == chain
    {
      this.config := config;
      this.transactions := transactions;
      this.chain := chain;
      deposits := new DepositService(transactions, chain);
      withdrawals := new WithdrawService(transactions, chain);
    }

    ghost predicate Valid() {
      && deposits.transactions == transactions && deposits.chain == chain && deposits.Valid()
      && withdrawals.transactions == transactions && withdrawals.chain == chain
    }

    ghost function State(): Books
      reads withdrawals, withdrawals.transactions, withdrawals.chain
    {
      withdrawals.State()
    }

    /** The body of the inner loop: deposit processing, then withdraw processing. */
    method ProcessWallet(job: Job, answers: Pair -> PassAnswers)
      requires Valid() && transactions.Valid()
      modifies transactions, chain, withdrawals
      ensures transactions.Valid()
      ensures State() == JobStep(config, answers)(old(State()), job)
    {
      var a := answers(job.PairOf(config));
      deposits.ProcessDeposit(job.PairOf(config), job.PayeeOf(config), job.TermsOf(config), a.deposit);
      assert State() == DepositBooks(config, job, old(State()), a.deposit);
      withdrawals.ProcessWithdrawProcessed(job.SettingOf(config), a.collect);
      withdrawals.ProcessWithdrawSettled(job.SettingOf(config), a.pay);
    }

    /** The inner loop: one merchant's wallets, skipping those without a processor. */
    method ProcessMerchant(id: string, wallets: seq<(string, Wallets)>, answers: Pair -> PassAnswers)
      requires Valid() && transactions.Valid()
      modifies transactions, chain, withdrawals
      ensures transactions.Valid()
      ensures State() == Fold(JobsOfMerchant(config, id, wallets), old(State()), JobStep(config, answers))
    {
      assert wallets[..0] == [];
      for j := 0 to |wallets|
        invariant transactions.Valid()
        invariant State() == Fold(JobsOfMerchant(config, id, wallets[..j]), old(State()), JobStep(config, answers))
      {
        var bc := ToLower(wallets[j].0);
        var job := Job(id, wallets[j].1);
        JobsOfMerchantStep(config, id, wallets, j);
        if bc == config.blockchain {
          FoldAppend(JobsOfMerchant(config, id, wallets[..j]), job, old(State()), JobStep(config, answers));
          ProcessWallet(job, answers);
        }
      }
      assert wallets[..|wallets|] == wallets;
    }

    method ProcessTransaction(merchants: seq<MerchantRecord>, answers: Pair -> PassAnswers)
      requires Valid() && transactions.Valid()
      modifies transactions, chain, withdrawals
      ensures transactions.Valid()
      ensures State() == Fold(Jobs(config, merchants), old(State()), JobStep(config, answers))
    {
      assert merchants[..0] == [];
      for i := 0 to |merchants|
        invariant transactions.Valid()
        invariant State() == Fold(Jobs(config, merchants[..i]), old(State()), JobStep(config, answers))
      {
        JobsStep(config, merchants, i);
        match merchants[i]
        case Unreadable =>
          assert Jobs(config, merchants[..i]) + [] == Jobs(config, merchants[..i]);
        case Readable(id, wallets) =>
          FoldConcat(Jobs(config, merchants[..i]), JobsOfMerchant(config, id, wallets), old(State()),
                     JobStep(config, answers));
          ProcessMerchant(id, wallets, answers);
      }
      assert merchants[..|merchants|] == merchants;
    }
  }
}
