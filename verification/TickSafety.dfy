/** The safety of crediting over whole ticks: every phase of the service is one of the steps that keep it. */
module TickSafety {
  import opened Transactions
  import opened Ledger
  import opened Strings
  import opened Settlement
  import opened Deposits
  import opened Withdrawals
  import opened Scheduler
  import opened TickTheorems
  import opened Crediting
  import Merchants
  import Passes

  /** The wallets that a job pays into and out of are the merchant's own. */
  predicate OwnWallets(job: Job) {
    Contains(job.wallets.receivingID, job.merchant) && Contains(job.wallets.sendingID, job.merchant)
  }

  ghost predicate UsersUntouched(b: Balances, b': Balances) {
    forall p: Purse :: !Crediting.Internal(p.user) ==> Bal(b', p.Account(), p.coin) == Bal(b, p.Account(), p.coin)
  }

  lemma {:induction false} DisburseLeavesUsers(s: Settlement, b: Balances, to: Account, n: nat)
    requires n <= |s.batch| && (to.Wallet? ==> Contains(to.external, to.merchant))
    ensures UsersUntouched(b, s.Disburse(b, to, n))
  {
    if n > 0 {
      DisburseLeavesUsers(s, b, to, n - 1);
    }
  }

  lemma CollectRowLeavesUsers(s: Setting, w: Books, t: Tx, a: CollectAnswer)
    requires Contains(s.terms.sendingID, s.merchant)
    ensures UsersUntouched(w.balance, s.CollectRow(w, t, a).balance)
  {
  }

  lemma {:induction false} CollectAllLeavesUsers(s: Setting, w: Books, batch: seq<Tx>, answers: nat -> CollectAnswer)
    requires Contains(s.terms.sendingID, s.merchant)
    ensures UsersUntouched(w.balance, s.CollectAll(w, batch, answers).balance)
  {
    if batch != [] {
      var init, last := batch[..|batch| - 1], batch[|batch| - 1];
      CollectAllLeavesUsers(s, w, init, answers);
      CollectRowLeavesUsers(s, s.CollectAll(w, init, answers), last, answers(last.guid));
    }
  }

  lemma {:induction false} PayAllLeavesUsers(s: Setting, w: Books, batch: seq<Tx>, answers: nat -> PayAnswer)
    ensures UsersUntouched(w.balance, s.PayAll(w, batch, answers).balance)
  {
    if batch != [] {
      PayAllLeavesUsers(s, w, batch[..|batch| - 1], answers);
    }
  }

  /** The table and the balances as Crediting sees them. */
  function WorldOf(w: Books, received: Balances, landed: set<nat>): World {
    World(w.rows, w.balance, received, landed)
  }

  // The four later phases are `Later` steps, table and balances.

  /** The settlement phase with its transfers, …  */
  lemma SettlementIsLater(c: Config, job: Job, w: World, answers: Answers)
    requires UniqueGuids(w.rows) && OwnWallets(job)
    ensures var p, terms := job.PairOf(c), job.TermsOf(c);
            var s := Settlement(DepositBatch(w.rows, p, Processed), terms, answers);
            var rows, balance := SettlePhase(w.rows, p, terms, answers),
                                 s.Disburse(w.balance, job.PayeeOf(c), s.VisitedFrom(0));
            Next(c.blockchain, w, Later(rows, balance), w.(rows := rows, balance := balance))
  {
    var p, terms := job.PairOf(c), job.TermsOf(c);
    var s := Settlement(DepositBatch(w.rows, p, Processed), terms, answers);
    DisburseLeavesUsers(s, w.balance, job.PayeeOf(c), s.VisitedFrom(0));
    var rows := SettlePhase(w.rows, p, terms, answers);
    forall i | 0 <= i < |w.rows|
      ensures SameIdentity(w.rows[i], rows[i]) && (rows[i] == w.rows[i] || (AfterInit(w.rows[i]) && AfterInit(rows[i])))
    {
      Passes.SettlePhaseAt(w.rows, p, terms, answers, i);
    }
    Passes.SameRowsKeepGuids(w.rows, rows);
  }

  /** … the confirmation of settlements, … */
  lemma DoneIsLater(bc: string, w: World, p: Pair, answers: nat -> DoneAnswer)
    requires UniqueGuids(w.rows)
    ensures var rows := DonePhase(w.rows, p, answers); Next(bc, w, Later(rows, w.balance), w.(rows := rows))
  {
    forall i | 0 <= i < |w.rows|
      ensures var row := DonePhase(w.rows, p, answers)[i];
              SameIdentity(w.rows[i], row) && (row == w.rows[i] || (AfterInit(w.rows[i]) && AfterInit(row)))
    {
      Passes.DonePhaseAt(w.rows, p, answers, i);
    }
    Passes.SameRowsKeepGuids(w.rows, DonePhase(w.rows, p, answers));
  }

  /** … the collection of withdrawals, … */
  lemma CollectIsLater(bc: string, s: Setting, w: Books, received: Balances, landed: set<nat>,
                       answers: nat -> CollectAnswer)
    requires UniqueGuids(w.rows) && Contains(s.terms.sendingID, s.merchant)
    ensures var w' := s.CollectAll(w, s.Batch(w.rows, Processed), answers);
            Next(bc, WorldOf(w, received, landed), Later(w'.rows, w'.balance), WorldOf(w', received, landed))
  {
    var p, batch := Pair(s.merchant, s.blockchain), s.Batch(w.rows, Processed);
    CollectAllLeavesUsers(s, w, batch, answers);
    FetchHasUniqueGuids(w.rows, Passes.WithdrawQuery(p, Processed), BATCH_LIMIT);
    var results := CollectAllIsPuts(w, s, batch, answers);
    var rows := s.CollectAll(w, batch, answers).rows;
    forall i | 0 <= i < |w.rows|
      ensures SameIdentity(w.rows[i], rows[i]) && (rows[i] == w.rows[i] || w.rows[i].action == Withdraw)
    {
      Passes.CollectPhaseAt(w.rows, p, s.terms, results, i);
    }
    Passes.SameRowsKeepGuids(w.rows, rows);
  }

  /** … and their payout. */
  lemma PayIsLater(bc: string, s: Setting, w: Books, received: Balances, landed: set<nat>, answers: nat -> PayAnswer)
    requires UniqueGuids(w.rows)
    ensures var batch := s.Batch(w.rows, Settled);
            var w' := s.PayAll(w, batch[..PayVisited(batch, answers, 0)], answers);
            Next(bc, WorldOf(w, received, landed), Later(w'.rows, w'.balance), WorldOf(w', received, landed))
  {
    var p, batch := Pair(s.merchant, s.blockchain), s.Batch(w.rows, Settled);
    var v := PayVisited(batch, answers, 0);
    PayAllLeavesUsers(s, w, batch[..v], answers);
    FetchHasUniqueGuids(w.rows, Passes.WithdrawQuery(p, Settled), BATCH_LIMIT);
    StoppedPayoutsArePuts(w, s, batch, v, answers);
    var rows := s.PayAll(w, batch[..v], answers).rows;
    forall i | 0 <= i < |w.rows|
      ensures SameIdentity(w.rows[i], rows[i]) && (rows[i] == w.rows[i] || w.rows[i].action == Withdraw)
    {
      Passes.PayPhaseAt(w.rows, p, StoppedAnswers(batch, v, answers), i);
    }
    Passes.SameRowsKeepGuids(w.rows, rows);
  }

  /** The service's books together with what was received and what has landed. */
  datatype Traced = Traced(books: Books, received: Balances, landed: set<nat>) {
    function InWorld(): World {
      WorldOf(books, received, landed)
    }
  }

  function TracedJob(c: Config, job: Job, s: Traced, a: PassAnswers): Traced {
    Traced(JobBooks(c, job, s.books, a), s.received,
           InitLoop(s.InWorld(), DepositBatch(s.books.rows, job.PairOf(c), Init), a.deposit.init).landed)
  }

  function TracedStep(c: Config, answers: Pair -> PassAnswers): (Traced, Job) -> Traced {
    (s: Traced, job: Job) => TracedJob(c, job, s, answers(job.PairOf(c)))
  }

  /** The chain's answers about the deposits that a job works on are true, and the rows are written. */
  ghost predicate Honest(c: Config, job: Job, s: Traced, a: PassAnswers) {
    forall t :: t in DepositBatch(s.books.rows, job.PairOf(c), Init) ==>
      Truthful(s.InWorld(), t, a.deposit.init(t.guid))
  }

  lemma DepositsKeepSafe(c: Config, job: Job, s: Traced, a: PassAnswers)
    requires Safe(s.InWorld(), c.blockchain) && Honest(c, job, s, a) && OwnWallets(job)
    ensures var landed := TracedJob(c, job, s, a).landed;
            Safe(WorldOf(DepositBooks(c, job, s.books, a.deposit), s.received, landed), c.blockchain)
  {
    var p, terms, d := job.PairOf(c), job.TermsOf(c), a.deposit;
    var w1 := InitLoop(s.InWorld(), DepositBatch(s.books.rows, p, Init), d.init);
    InitiatedPhaseKeeps(s.InWorld(), p, d.init);
    SettlementIsLater(c, job, w1, d.settle);
    var settlement := Settlement(DepositBatch(w1.rows, p, Processed), terms, d.settle);
    var balance := settlement.Disburse(w1.balance, job.PayeeOf(c), settlement.VisitedFrom(0));
    var w2 := w1.(rows := SettlePhase(w1.rows, p, terms, d.settle), balance := balance);
    NextKeeps(c.blockchain, w1, Later(w2.rows, w2.balance), w2);
    DoneIsLater(c.blockchain, w2, p, d.done);
    var w3 := w2.(rows := DonePhase(w2.rows, p, d.done));
    NextKeeps(c.blockchain, w2, Later(w3.rows, w3.balance), w3);
  }

  /** One wallet's whole share of a tick. */
  lemma JobKeepsSafe(c: Config, job: Job, s: Traced, a: PassAnswers)
    requires Safe(s.InWorld(), c.blockchain) && Honest(c, job, s, a) && OwnWallets(job)
    ensures Safe(TracedJob(c, job, s, a).InWorld(), c.blockchain)
  {
    DepositsKeepSafe(c, job, s, a);
    var landed, setting := TracedJob(c, job, s, a).landed, job.SettingOf(c);
    var deposited := DepositBooks(c, job, s.books, a.deposit);
    CollectIsLater(c.blockchain, setting, deposited, s.received, landed, a.collect);
    var collected := setting.CollectAll(deposited, setting.Batch(deposited.rows, Processed), a.collect);
    NextKeeps(c.blockchain, WorldOf(deposited, s.received, landed), Later(collected.rows, collected.balance),
              WorldOf(collected, s.received, landed));
    PayIsLater(c.blockchain, setting, collected, s.received, landed, a.pay);
    var paid := JobBooks(c, job, s.books, a);
    NextKeeps(c.blockchain, WorldOf(collected, s.received, landed), Later(paid.rows, paid.balance),
              WorldOf(paid, s.received, landed));
  }

  ghost predicate HonestTick(c: Config, jobs: seq<Job>, s: Traced, answers: Pair -> PassAnswers) {
    jobs == [] ||
    var init, job := jobs[..|jobs| - 1], jobs[|jobs| - 1];
    HonestTick(c, init, s, answers) && Honest(c, job, Fold(init, s, TracedStep(c, answers)), answers(job.PairOf(c)))
  }

  /** A whole tick of the service keeps crediting safe: its books are those of `ProcessTransaction`, and no user's
      deposits come to exceed what the user's wallet received. */
  lemma {:induction false} TickKeepsSafe(c: Config, jobs: seq<Job>, s: Traced, answers: Pair -> PassAnswers)
    requires Safe(s.InWorld(), c.blockchain) && HonestTick(c, jobs, s, answers)
    requires forall job :: job in jobs ==> OwnWallets(job)
    ensures var s' := Fold(jobs, s, TracedStep(c, answers));
            && s'.books == Fold(jobs, s.books, JobStep(c, answers)) && s'.received == s.received
            && Safe(s'.InWorld(), c.blockchain)
  {
    if jobs != [] {
      var init, job := jobs[..|jobs| - 1], jobs[|jobs| - 1];
      TickKeepsSafe(c, init, s, answers);
      JobKeepsSafe(c, job, Fold(init, s, TracedStep(c, answers)), answers(job.PairOf(c)));
    }
  }

  // The merchants' records, as the service keeps them.

  /** What the scheduler reads: records of the store, with wallets that they hold. */
  ghost predicate Lists(m: Merchants.Records, merchants: seq<MerchantRecord>) {
    forall r :: r in merchants && r.Readable? ==>
      r.id in m && forall e :: e in r.wallets ==> e.0 in m[r.id].wallets && m[r.id].wallets[e.0] == e.1
  }

  /** A wallet of a reachable record is the merchant's own. */
  lemma ReachableJobOwnsWallets(ops: seq<Merchants.Op>, id: string, blockchain: string)
    requires var m := Merchants.Run(map[], ops); id in m && blockchain in m[id].wallets
    ensures OwnWallets(Job(id, Merchants.Run(map[], ops)[id].wallets[blockchain]))
  {
    var w := Merchants.Run(map[], ops)[id].wallets[blockchain];
    Merchants.ReachableIdsAreOwn(ops);
    PrefixIsContained(id, "-R");
    PrefixIsContained(id, "-S");
  }

  lemma {:induction false} MerchantJobsOwnWallets(c: Config, ops: seq<Merchants.Op>, id: string,
                                                  wallets: seq<(string, Wallets)>)
    requires var m := Merchants.Run(map[], ops);
             id in m && forall e :: e in wallets ==> e.0 in m[id].wallets && m[id].wallets[e.0] == e.1
    ensures forall job :: job in JobsOfMerchant(c, id, wallets) ==> OwnWallets(job)
  {
    if wallets != [] {
      var last := wallets[|wallets| - 1];
      MerchantJobsOwnWallets(c, ops, id, wallets[..|wallets| - 1]);
      assert last in wallets;
      ReachableJobOwnsWallets(ops, id, last.0);
    }
  }

  /** All jobs of a tick over reachable records work on the merchants' own wallets. */
  lemma {:induction false} ReachableJobsOwnWallets(c: Config, ops: seq<Merchants.Op>, merchants: seq<MerchantRecord>)
    requires Lists(Merchants.Run(map[], ops), merchants)
    ensures forall job :: job in Jobs(c, merchants) ==> OwnWallets(job)
  {
    if merchants != [] {
      var last := merchants[|merchants| - 1];
      ReachableJobsOwnWallets(c, ops, merchants[..|merchants| - 1]);
      assert last in merchants;
      if last.Readable? {
        MerchantJobsOwnWallets(c, ops, last.id, last.wallets);
      }
    }
  }

  /** So a tick as `ProcessTransaction` runs it, over any records that requests can lead to, keeps crediting safe. */
  lemma ServiceTickKeepsSafe(c: Config, ops: seq<Merchants.Op>, merchants: seq<MerchantRecord>, s: Traced,
                             answers: Pair -> PassAnswers)
    requires Lists(Merchants.Run(map[], ops), merchants)
    requires Safe(s.InWorld(), c.blockchain) && HonestTick(c, Jobs(c, merchants), s, answers)
    ensures var s' := Fold(Jobs(c, merchants), s, TracedStep(c, answers));
            && s'.books == Fold(Jobs(c, merchants), s.books, JobStep(c, answers)) && s'.received == s.received
            && Safe(s'.InWorld(), c.blockchain)
  {
    ReachableJobsOwnWallets(c, ops, merchants);
    TickKeepsSafe(c, Jobs(c, merchants), s, answers);
  }
}
