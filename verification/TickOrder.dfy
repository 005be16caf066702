/** A tick does not depend on the order in which merchants and wallets are visited, although the collection of
    withdrawals looks at balances that a tick moves. */
module TickOrder {
  import opened Transactions
  import opened Ledger
  import opened Settlement
  import opened Deposits
  import opened Withdrawals
  import opened Passes
  import opened Lifecycle
  import opened Isolation
  import opened Scheduler
  import opened TickTheorems

  /** The two ledgers agree on a merchant's wallets. */
  ghost predicate SameWallets(merchant: string, b: Balances, b': Balances) {
    forall external, c :: Bal(b, Wallet(merchant, external), c) == Bal(b', Wallet(merchant, external), c)
  }

  /** No wallet of any other merchant moves. */
  ghost predicate OthersKeepWallets(merchant: string, b: Balances, b': Balances) {
    forall other, external, c :: other != merchant ==>
      Bal(b, Wallet(other, external), c) == Bal(b', Wallet(other, external), c)
  }

  /** All that a job of the pair can see is the same. */
  ghost predicate SameFor(p: Pair, w: Books, w': Books) {
    AgreeOn(p, w.rows, w'.rows) && SameWallets(p.merchant, w.balance, w'.balance)
  }

  /** What moves in two ledgers in the same way, inside one merchant and the processor's accounts. */
  ghost predicate Parallel(merchant: string, b: Balances, b': Balances, after: Balances, after': Balances) {
    && SameWallets(merchant, after, after')
    && OthersKeepWallets(merchant, b, after)
  }

  lemma {:induction false} GatherIsParallel(merchant: string, b: Balances, b': Balances, batch: seq<Tx>,
                                            answers: nat -> InitAnswer)
    requires SameWallets(merchant, b, b') && forall t :: t in batch ==> t.merchant == merchant
    ensures Parallel(merchant, b, b', Gather(b, batch, answers), Gather(b', batch, answers))
  {
    if batch != [] {
      assert batch[|batch| - 1] in batch;
      GatherIsParallel(merchant, b, b', batch[..|batch| - 1], answers);
    }
  }

  lemma {:induction false} DisburseIsParallel(s: Settlement, merchant: string, to: Account, b: Balances, b': Balances,
                                              n: nat)
    requires SameWallets(merchant, b, b') && n <= |s.batch| && (to.Wallet? ==> to.merchant == merchant)
    ensures Parallel(merchant, b, b', s.Disburse(b, to, n), s.Disburse(b', to, n))
  {
    if n > 0 {
      DisburseIsParallel(s, merchant, to, b, b', n - 1);
    }
  }

  lemma DepositBooksAreLocal(c: Config, job: Job, w: Books, w': Books, a: DepositAnswers)
    requires UniqueGuids(w.rows) && UniqueGuids(w'.rows) && SameFor(job.PairOf(c), w, w')
    ensures var p, v, v' := job.PairOf(c), DepositBooks(c, job, w, a), DepositBooks(c, job, w', a);
            && LocalTo(p, w.rows, w'.rows, v.rows, v'.rows) && UniqueGuids(v.rows) && UniqueGuids(v'.rows)
            && Parallel(p.merchant, w.balance, w'.balance, v.balance, v'.balance)
  {
    var p, terms := job.PairOf(c), job.TermsOf(c);
    DepositPassIsLocal(w.rows, w'.rows, p, terms, a);
    var q := Query(p.merchant, p.blockchain, Deposit, Init);
    FetchAgrees(p, w.rows, w'.rows, q, BATCH_LIMIT);
    MembersAreTheMerchants(w.rows, q);
    var batch := DepositBatch(w.rows, p, Init);
    var gathered, gathered' := Gather(w.balance, batch, a.init), Gather(w'.balance, batch, a.init);
    GatherIsParallel(p.merchant, w.balance, w'.balance, batch, a.init);
    PutsLocal(p, w.rows, w'.rows, q, InitEdits(a.init));
    FetchAgrees(p, InitPhase(w.rows, p, a.init), InitPhase(w'.rows, p, a.init),
                Query(p.merchant, p.blockchain, Deposit, Processed), BATCH_LIMIT);
    var s := Settlement(DepositBatch(InitPhase(w.rows, p, a.init), p, Processed), terms, a.settle);
    DisburseIsParallel(s, p.merchant, job.PayeeOf(c), gathered, gathered', s.VisitedFrom(0));
  }

  lemma MembersAreTheMerchants(rows: seq<Tx>, q: Query)
    ensures forall t :: t in Fetch(rows, q, BATCH_LIMIT) ==> t.merchant == q.merchant
  {
    FetchMembers(rows, q, BATCH_LIMIT);
  }

  /** With the same wallets, the same collections succeed. */
  lemma {:induction false} CollectAllIsParallel(s: Setting, w: Books, w': Books, batch: seq<Tx>,
                                                answers: nat -> CollectAnswer) returns (results: nat -> CollectResult)
    requires UniqueGuids(batch) && SameWallets(s.merchant, w.balance, w'.balance)
    ensures var v, v' := s.CollectAll(w, batch, answers), s.CollectAll(w', batch, answers);
            && v.rows == Puts(w.rows, batch, CollectEdits(s.terms, results))
            && v'.rows == Puts(w'.rows, batch, CollectEdits(s.terms, results))
            && Parallel(s.merchant, w.balance, w'.balance, v.balance, v'.balance)
  {
    if batch == [] {
      results := (g: nat) => CollectResult(false, None, false);
    } else {
      var t, rest := batch[|batch| - 1], batch[..|batch| - 1];
      var earlier := CollectAllIsParallel(s, w, w', rest, answers);
      var before, before', a := s.CollectAll(w, rest, answers), s.CollectAll(w', rest, answers), answers(t.guid);
      assert s.Collects(before.balance, t, a) == s.Collects(before'.balance, t, a);
      var r := CollectResult(a.reput, if s.Collects(before.balance, t, a) then a.broadcast else None, a.stored);
      results := (g: nat) => if g == t.guid then r else earlier(g);
      CollectRowIsPuts(before, s, t, a);
      CollectRowIsPuts(before', s, t, a);
      PutsCongruence(w.rows, rest, CollectEdits(s.terms, earlier), CollectEdits(s.terms, results));
      PutsCongruence(w'.rows, rest, CollectEdits(s.terms, earlier), CollectEdits(s.terms, results));
    }
  }

  lemma {:induction false} PayAllLeavesWallets(s: Setting, w: Books, batch: seq<Tx>, answers: nat -> PayAnswer)
    ensures var b := s.PayAll(w, batch, answers).balance;
            SameWallets(s.merchant, w.balance, b) && OthersKeepWallets(s.merchant, w.balance, b)
  {
    if batch != [] {
      PayAllLeavesWallets(s, w, batch[..|batch| - 1], answers);
    }
  }

  lemma WithdrawBooksAreLocal(c: Config, job: Job, w: Books, w': Books, a: PassAnswers)
    requires UniqueGuids(w.rows) && UniqueGuids(w'.rows) && SameFor(job.PairOf(c), w, w')
    ensures var p, v, v' := job.PairOf(c), WithdrawBooks(c, job, w, a), WithdrawBooks(c, job, w', a);
            && LocalTo(p, w.rows, w'.rows, v.rows, v'.rows) && UniqueGuids(v.rows) && UniqueGuids(v'.rows)
            && Parallel(p.merchant, w.balance, w'.balance, v.balance, v'.balance)
  {
    var p, s := job.PairOf(c), job.SettingOf(c);
    var batch := s.Batch(w.rows, Processed);
    CollectsAreLocal(s, w, w', a.collect);
    var x, x' := s.CollectAll(w, batch, a.collect), s.CollectAll(w', batch, a.collect);
    PaysAreLocal(s, x, x', a.pay);
    LocalChain(p, w.rows, w'.rows, x.rows, x'.rows,
               WithdrawBooks(c, job, w, a).rows, WithdrawBooks(c, job, w', a).rows);
  }

  lemma CollectsAreLocal(s: Setting, w: Books, w': Books, answers: nat -> CollectAnswer)
    requires UniqueGuids(w.rows) && UniqueGuids(w'.rows) && SameFor(Pair(s.merchant, s.blockchain), w, w')
    ensures var batch := s.Batch(w.rows, Processed);
            var v, v' := s.CollectAll(w, batch, answers), s.CollectAll(w', batch, answers);
            && s.Batch(w'.rows, Processed) == batch
            && LocalTo(Pair(s.merchant, s.blockchain), w.rows, w'.rows, v.rows, v'.rows)
            && UniqueGuids(v.rows) && UniqueGuids(v'.rows)
            && Parallel(s.merchant, w.balance, w'.balance, v.balance, v'.balance)
  {
    var p := Pair(s.merchant, s.blockchain);
    var q := WithdrawQuery(p, Processed);
    FetchAgrees(p, w.rows, w'.rows, q, BATCH_LIMIT);
    FetchHasUniqueGuids(w.rows, q, BATCH_LIMIT);
    var batch := s.Batch(w.rows, Processed);
    var results := CollectAllIsParallel(s, w, w', batch, answers);
    PutsLocal(p, w.rows, w'.rows, q, CollectEdits(s.terms, results));
    SameRowsKeepGuids(w.rows, s.CollectAll(w, batch, answers).rows);
    SameRowsKeepGuids(w'.rows, s.CollectAll(w', batch, answers).rows);
  }

  lemma PaysAreLocal(s: Setting, w: Books, w': Books, answers: nat -> PayAnswer)
    requires UniqueGuids(w.rows) && UniqueGuids(w'.rows) && SameFor(Pair(s.merchant, s.blockchain), w, w')
    ensures var batch := s.Batch(w.rows, Settled);
            var paid := batch[..PayVisited(batch, answers, 0)];
            var v, v' := s.PayAll(w, paid, answers), s.PayAll(w', paid, answers);
            && s.Batch(w'.rows, Settled) == batch
            && LocalTo(Pair(s.merchant, s.blockchain), w.rows, w'.rows, v.rows, v'.rows)
            && Parallel(s.merchant, w.balance, w'.balance, v.balance, v'.balance)
  {
    var p := Pair(s.merchant, s.blockchain);
    var q := WithdrawQuery(p, Settled);
    FetchAgrees(p, w.rows, w'.rows, q, BATCH_LIMIT);
    FetchHasUniqueGuids(w.rows, q, BATCH_LIMIT);
    var batch := s.Batch(w.rows, Settled);
    var n := PayVisited(batch, answers, 0);
    StoppedPayoutsArePuts(w, s, batch, n, answers);
    StoppedPayoutsArePuts(w', s, batch, n, answers);
    PutsLocal(p, w.rows, w'.rows, q, PayEdits(StoppedAnswers(batch, n, answers)));
    PayAllLeavesWallets(s, w, batch[..n], answers);
    PayAllLeavesWallets(s, w', batch[..n], answers);
  }

  /** A job changes only rows of its pair and, among wallets, only its merchant's; what it does to the rows depends on
      nothing else. */
  lemma JobIsLocal(c: Config, job: Job, w: Books, w': Books, a: PassAnswers)
    requires UniqueGuids(w.rows) && UniqueGuids(w'.rows) && SameFor(job.PairOf(c), w, w')
    ensures var p, v, v' := job.PairOf(c), JobBooks(c, job, w, a), JobBooks(c, job, w', a);
            && LocalTo(p, w.rows, w'.rows, v.rows, v'.rows) && UniqueGuids(v.rows) && UniqueGuids(v'.rows)
            && OthersKeepWallets(p.merchant, w.balance, v.balance)
  {
    var d, d' := DepositBooks(c, job, w, a.deposit), DepositBooks(c, job, w', a.deposit);
    DepositBooksAreLocal(c, job, w, w', a.deposit);
    WithdrawBooksAreLocal(c, job, d, d', a);
    LocalChain(job.PairOf(c), w.rows, w'.rows, d.rows, d'.rows,
               JobBooks(c, job, w, a).rows, JobBooks(c, job, w', a).rows);
  }

  // Whole ticks.

  ghost predicate DistinctMerchants(jobs: seq<Job>) {
    forall j, k :: 0 <= j < k < |jobs| ==> jobs[j].merchant != jobs[k].merchant
  }

  ghost predicate AsAlone(c: Config, job: Job, w: Books, answers: Pair -> PassAnswers, after: seq<Tx>, i: nat)
    requires i < |after|
  {
    var alone := JobBooks(c, job, w, answers(job.PairOf(c))).rows;
    |alone| == |after| && after[i] == alone[i]
  }

  /** Row `i` is what the one job of its own pair makes of it, alone. */
  ghost predicate FromOwnJob(c: Config, jobs: seq<Job>, w: Books, answers: Pair -> PassAnswers, after: seq<Tx>, i: nat)
    requires i < |w.rows| == |after|
  {
    && (forall k :: 0 <= k < |jobs| && InPair(w.rows[i], jobs[k].PairOf(c)) ==>
          AsAlone(c, jobs[k], w, answers, after, i))
    && ((forall k :: 0 <= k < |jobs| ==> !InPair(w.rows[i], jobs[k].PairOf(c))) ==> after[i] == w.rows[i])
  }

  ghost predicate NoJobOf(merchant: string, jobs: seq<Job>) {
    forall k :: 0 <= k < |jobs| ==> jobs[k].merchant != merchant
  }

  /** After some jobs: every row is from its own job, and merchants whose turn has not come still have their wallets. */
  ghost predicate TickSoFar(c: Config, jobs: seq<Job>, w: Books, answers: Pair -> PassAnswers, after: Books) {
    && UniqueGuids(after.rows) && SameRows(w.rows, after.rows)
    && (forall i :: 0 <= i < |w.rows| ==> FromOwnJob(c, jobs, w, answers, after.rows, i))
    && (forall merchant :: NoJobOf(merchant, jobs) ==> SameWallets(merchant, w.balance, after.balance))
  }

  lemma NextJob(c: Config, init: seq<Job>, job: Job, w: Books, answers: Pair -> PassAnswers, before: Books)
    requires UniqueGuids(w.rows) && TickSoFar(c, init, w, answers, before) && NoJobOf(job.merchant, init)
    ensures TickSoFar(c, init + [job], w, answers, JobBooks(c, job, before, answers(job.PairOf(c))))
  {
    var p, a, jobs := job.PairOf(c), answers(job.PairOf(c)), init + [job];
    var after := JobBooks(c, job, before, a);
    NextJobRows(c, init, job, w, answers, before);
    forall merchant | NoJobOf(merchant, jobs) ensures SameWallets(merchant, w.balance, after.balance) {
      assert jobs[|init|] == job;
      forall k | 0 <= k < |init| ensures init[k].merchant != merchant {
        assert init[k] == jobs[k];
      }
      assert NoJobOf(merchant, init) && SameWallets(merchant, w.balance, before.balance);
    }
  }

  lemma NextJobRows(c: Config, init: seq<Job>, job: Job, w: Books, answers: Pair -> PassAnswers, before: Books)
    requires UniqueGuids(w.rows) && TickSoFar(c, init, w, answers, before) && NoJobOf(job.merchant, init)
    ensures var after := JobBooks(c, job, before, answers(job.PairOf(c)));
            && UniqueGuids(after.rows) && SameRows(w.rows, after.rows)
            && OthersKeepWallets(job.merchant, before.balance, after.balance)
            && forall i :: 0 <= i < |w.rows| ==> FromOwnJob(c, init + [job], w, answers, after.rows, i)
  {
    var p, a := job.PairOf(c), answers(job.PairOf(c));
    forall i | 0 <= i < |w.rows| && (InPair(w.rows[i], p) || InPair(before.rows[i], p))
      ensures w.rows[i] == before.rows[i]
    {
      assert SameIdentity(w.rows[i], before.rows[i]) && FromOwnJob(c, init, w, answers, before.rows, i);
    }
    assert SameWallets(job.merchant, w.balance, before.balance);
    JobIsLocal(c, job, before, w, a);
    var after := JobBooks(c, job, before, a);
    forall i | 0 <= i < |w.rows|
      ensures SameIdentity(w.rows[i], after.rows[i]) && FromOwnJob(c, init + [job], w, answers, after.rows, i)
    {
      assert SameIdentity(w.rows[i], before.rows[i]) && SameIdentity(before.rows[i], after.rows[i]);
      FromNextJob(c, init, job, w, answers, before.rows, after.rows, i);
    }
  }

  lemma FromNextJob(c: Config, init: seq<Job>, job: Job, w: Books, answers: Pair -> PassAnswers, before: seq<Tx>,
                    after: seq<Tx>, i: nat)
    requires i < |w.rows| == |before| == |after| && FromOwnJob(c, init, w, answers, before, i)
    requires NoJobOf(job.merchant, init)
    requires InPair(w.rows[i], job.PairOf(c)) ==> AsAlone(c, job, w, answers, after, i)
    requires !InPair(w.rows[i], job.PairOf(c)) ==> after[i] == before[i]
    ensures FromOwnJob(c, init + [job], w, answers, after, i)
  {
    var jobs := init + [job];
    forall k | 0 <= k < |jobs| && InPair(w.rows[i], jobs[k].PairOf(c))
      ensures AsAlone(c, jobs[k], w, answers, after, i)
    {
      if k < |init| {
        assert jobs[k] == init[k];
      }
    }
    if forall k :: 0 <= k < |jobs| ==> !InPair(w.rows[i], jobs[k].PairOf(c)) {
      assert jobs[|init|] == job && forall k :: 0 <= k < |init| ==> jobs[k] == init[k];
    }
  }

  lemma {:induction false} TickIsFromJobs(c: Config, jobs: seq<Job>, w: Books, answers: Pair -> PassAnswers)
    requires UniqueGuids(w.rows) && DistinctMerchants(jobs)
    ensures TickSoFar(c, jobs, w, answers, Fold(jobs, w, JobStep(c, answers)))
  {
    if jobs == [] {
      assert Fold(jobs, w, JobStep(c, answers)) == w;
    } else {
      var init, job := jobs[..|jobs| - 1], jobs[|jobs| - 1];
      assert jobs == init + [job];
      TickIsFromJobs(c, init, w, answers);
      NextJob(c, init, job, w, answers, Fold(init, w, JobStep(c, answers)));
    }
  }

  ghost predicate SameJobs(jobs: seq<Job>, jobs': seq<Job>) {
    && (forall k :: 0 <= k < |jobs| ==> jobs[k] in jobs')
    && (forall j :: 0 <= j < |jobs'| ==> jobs'[j] in jobs)
  }

  lemma OwnJobIsUnique(c: Config, jobs: seq<Job>, jobs': seq<Job>, w: Books, answers: Pair -> PassAnswers,
                       after: seq<Tx>, after': seq<Tx>, i: nat)
    requires i < |w.rows| == |after| == |after'| && SameJobs(jobs, jobs')
    requires FromOwnJob(c, jobs, w, answers, after, i) && FromOwnJob(c, jobs', w, answers, after', i)
    ensures after[i] == after'[i]
  {
    if k :| 0 <= k < |jobs| && InPair(w.rows[i], jobs[k].PairOf(c)) {
      assert jobs[k] in jobs';
      var j :| 0 <= j < |jobs'| && jobs'[j] == jobs[k];
    } else {
      forall j | 0 <= j < |jobs'| ensures !InPair(w.rows[i], jobs'[j].PairOf(c)) {
        assert jobs'[j] in jobs;
      }
    }
  }

  /** Two orders of the same jobs leave the same table: for the same answers of the chain, balance checks included. */
  lemma TickOrderIsIrrelevant(c: Config, jobs: seq<Job>, jobs': seq<Job>, w: Books, answers: Pair -> PassAnswers)
    requires UniqueGuids(w.rows) && DistinctMerchants(jobs) && DistinctMerchants(jobs') && SameJobs(jobs, jobs')
    ensures Fold(jobs, w, JobStep(c, answers)).rows == Fold(jobs', w, JobStep(c, answers)).rows
  {
    TickIsFromJobs(c, jobs, w, answers);
    TickIsFromJobs(c, jobs', w, answers);
    var after, after' := Fold(jobs, w, JobStep(c, answers)).rows, Fold(jobs', w, JobStep(c, answers)).rows;
    forall i | 0 <= i < |w.rows| ensures after[i] == after'[i] {
      OwnJobIsUnique(c, jobs, jobs', w, answers, after, after', i);
    }
  }
}
