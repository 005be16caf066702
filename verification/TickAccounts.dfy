/** The withdraw accounts over whole ticks: every phase of the service is one of the steps that keep them. */
module TickAccounts {
  import opened Transactions
  import opened Ledger
  import opened Settlement
  import opened Deposits
  import opened Withdrawals
  import opened Passes
  import opened Callbacks
  import opened Scheduler
  import opened TickTheorems
  import opened WithdrawLedger

  // Deposit processing and callbacks happen elsewhere.

  lemma {:induction false} GatherLeavesSending(b: Balances, batch: seq<Tx>, answers: nat -> InitAnswer, c: Coin)
    ensures Bal(Gather(b, batch, answers), ProcessingSending, c) == Bal(b, ProcessingSending, c)
  {
    if batch != [] {
      GatherLeavesSending(b, batch[..|batch| - 1], answers, c);
    }
  }

  lemma {:induction false} DisburseLeavesSending(s: Settlement, b: Balances, to: Account, n: nat, c: Coin)
    requires n <= |s.batch| && to != ProcessingSending
    ensures Bal(s.Disburse(b, to, n), ProcessingSending, c) == Bal(b, ProcessingSending, c)
  {
    if n > 0 {
      DisburseLeavesSending(s, b, to, n - 1, c);
    }
  }

  /** A deposit pass touches deposits only. */
  lemma DepositPassIsElsewhere(rows: seq<Tx>, p: Pair, terms: Terms, a: DepositAnswers)
    requires UniqueGuids(rows)
    ensures DepositsOnly(rows, DepositPass(rows, p, terms, a))
  {
    var rows1 := InitPhase(rows, p, a.init);
    forall i | 0 <= i < |rows|
      ensures SameIdentity(rows[i], rows1[i]) && (rows[i].action == Withdraw ==> rows1[i] == rows[i])
    {
      InitPhaseAt(rows, p, a.init, i);
    }
    SameRowsKeepGuids(rows, rows1);
    var rows2 := SettlePhase(rows1, p, terms, a.settle);
    forall i | 0 <= i < |rows|
      ensures SameIdentity(rows1[i], rows2[i]) && (rows1[i].action == Withdraw ==> rows2[i] == rows1[i])
    {
      SettlePhaseAt(rows1, p, terms, a.settle, i);
    }
    SameRowsKeepGuids(rows1, rows2);
    var rows3 := DonePhase(rows2, p, a.done);
    forall i | 0 <= i < |rows|
      ensures SameIdentity(rows2[i], rows3[i]) && (rows2[i].action == Withdraw ==> rows3[i] == rows2[i])
    {
      DonePhaseAt(rows2, p, a.done, i);
    }
    SameRowsKeepGuids(rows2, rows3);
  }

  /** All three deposit phases of a wallet, with their transfers, are one `Elsewhere` step. */
  lemma DepositBooksIsElsewhere(c: Config, job: Job, w: Books, a: DepositAnswers)
    requires UniqueGuids(w.rows)
    ensures var w' := DepositBooks(c, job, w, a); Next(c.processor, w, Elsewhere(w'.rows, w'.balance), w')
  {
    var p, terms := job.PairOf(c), job.TermsOf(c);
    DepositPassIsElsewhere(w.rows, p, terms, a);
    var gathered := Gather(w.balance, DepositBatch(w.rows, p, Init), a.init);
    var s := Settlement(DepositBatch(InitPhase(w.rows, p, a.init), p, Processed), terms, a.settle);
    forall coin
      ensures var after := DepositBooks(c, job, w, a).balance;
              Bal(after, ProcessingSending, coin) == Bal(w.balance, ProcessingSending, coin)
    {
      GatherLeavesSending(w.balance, DepositBatch(w.rows, p, Init), a.init, coin);
      DisburseLeavesSending(s, gathered, job.PayeeOf(c), s.VisitedFrom(0), coin);
    }
  }

  /** So is a callback, whatever it observes. */
  lemma CallbackIsElsewhere(p: Processor, w: Books, o: Observation)
    requires UniqueGuids(w.rows) && forall t :: t in w.rows ==> t.guid != o.guid
    ensures var rows := Observe(w.rows, o); Next(p, w, Elsewhere(rows, w.balance), w.(rows := rows))
  {
    assert forall i :: 0 <= i < |w.rows| ==> w.rows[i] in w.rows;
  }

  // Whole ticks.

  lemma JobKeepsAccounts(c: Config, job: Job, start: Balances, w: Books, a: PassAnswers)
    requires Accounted(c.processor, start, w)
    ensures Accounted(c.processor, start, JobBooks(c, job, w, a))
  {
    var deposited, s := DepositBooks(c, job, w, a.deposit), job.SettingOf(c);
    DepositBooksIsElsewhere(c, job, w, a.deposit);
    NextKeeps(c.processor, start, w, Elsewhere(deposited.rows, deposited.balance), deposited);
    PhasesKeepAccounts(c.processor, start, deposited, s, a.collect, a.pay);
    PhasesKeepAccounts(c.processor, start, s.CollectAll(deposited, s.Batch(deposited.rows, Processed), a.collect), s,
                       a.collect, a.pay);
  }

  /** A whole tick of the service, over all wallets and for all outcomes, keeps the accounts: every transfer of every
      withdrawal stays counted, and the processing sending wallet explained. */
  lemma {:induction false} TickKeepsAccounts(c: Config, jobs: seq<Job>, start: Balances, w: Books,
                                             answers: Pair -> PassAnswers)
    requires Accounted(c.processor, start, w)
    ensures Accounted(c.processor, start, Fold(jobs, w, JobStep(c, answers)))
  {
    if jobs != [] {
      var init, job := jobs[..|jobs| - 1], jobs[|jobs| - 1];
      TickKeepsAccounts(c, init, start, w, answers);
      JobKeepsAccounts(c, job, start, Fold(init, w, JobStep(c, answers)), answers(job.PairOf(c)));
    }
  }
}
