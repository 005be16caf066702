/** The tick of the service is a sequence of table passes, so what is proved about passes holds of ticks. */
module TickTheorems {
  import opened Transactions
  import opened Ledger
  import opened Settlement
  import opened Deposits
  import opened Withdrawals
  import opened Passes
  import opened Lifecycle
  import opened Scheduler

  lemma {:induction false} PutsCongruence(rows: seq<Tx>, batch: seq<Tx>, f: Tx -> seq<Edit>, g: Tx -> seq<Edit>)
    requires forall j :: 0 <= j < |batch| ==> f(batch[j]) == g(batch[j])
    ensures Puts(rows, batch, f) == Puts(rows, batch, g)
  {
    if batch != [] {
      PutsCongruence(rows, batch[..|batch| - 1], f, g);
    }
  }

  lemma {:induction false} PutsOfNothing(rows: seq<Tx>, batch: seq<Tx>, v: nat, f: Tx -> seq<Edit>)
    requires v <= |batch| && forall j :: v <= j < |batch| ==> f(batch[j]) == []
    ensures Puts(rows, batch, f) == Puts(rows, batch[..v], f)
  {
    if v == |batch| {
      assert batch[..v] == batch;
    } else {
      var n := |batch| - 1;
      PutsOfNothing(rows, batch[..n], v, f);
      assert batch[..n][..v] == batch[..v];
    }
  }

  lemma CollectRowIsPuts(w: Books, s: Setting, t: Tx, a: CollectAnswer)
    ensures s.CollectRow(w, t, a).rows
         == PutAll(w.rows, KeyOf(t),
                   CollectWrites(t, s.terms.StoredCommission(t.amount),
                                 CollectResult(a.reput, if s.Collects(w.balance, t, a) then a.broadcast else None,
                                               a.stored)))
  {
    var first := if a.reput then [Process(t.hash1, s.terms.StoredCommission(t.amount))] else [];
    if a.reput {
      PutAllOne(w.rows, KeyOf(t), first[0]);
    }
    if s.Collects(w.balance, t, a) && a.stored {
      assert (first + [Settle(a.broadcast.value)])[..|first|] == first;
    } else {
      assert first + [] == first;
    }
  }

  lemma {:induction false} CollectAllIsPuts(w: Books, s: Setting, batch: seq<Tx>, answers: nat -> CollectAnswer)
    returns (results: nat -> CollectResult)
    requires UniqueGuids(batch)
    ensures s.CollectAll(w, batch, answers).rows == Puts(w.rows, batch, CollectEdits(s.terms, results))
  {
    if batch == [] {
      results := (g: nat) => CollectResult(false, None, false);
    } else {
      var n := |batch| - 1;
      var t, rest := batch[n], batch[..n];
      var earlier := CollectAllIsPuts(w, s, rest, answers);
      var before, a := s.CollectAll(w, rest, answers), answers(t.guid);
      var r := CollectResult(a.reput, if s.Collects(before.balance, t, a) then a.broadcast else None, a.stored);
      results := (g: nat) => if g == t.guid then r else earlier(g);
      CollectRowIsPuts(before, s, t, a);
      PutsCongruence(w.rows, rest, CollectEdits(s.terms, earlier), CollectEdits(s.terms, results));
    }
  }

  lemma {:induction false} PayAllIsPuts(w: Books, s: Setting, batch: seq<Tx>, answers: nat -> PayAnswer)
    ensures s.PayAll(w, batch, answers).rows == Puts(w.rows, batch, PayEdits(answers))
  {
    if batch != [] {
      var n := |batch| - 1;
      var t, before := batch[n], s.PayAll(w, batch[..n], answers);
      PayAllIsPuts(w, s, batch[..n], answers);
      if answers(t.guid).broadcast.Some? && answers(t.guid).stored {
        PutAllOne(before.rows, KeyOf(t), Finish(answers(t.guid).broadcast.value));
      }
    }
  }

  /** The answers of a payout loop that stops early: its remaining payouts are not made. */
  function StoppedAnswers(batch: seq<Tx>, v: nat, answers: nat -> PayAnswer): nat -> PayAnswer
    requires v <= |batch|
  {
    var visited := set j | 0 <= j < v :: batch[j].guid;
    (g: nat) => if g in visited then answers(g) else PayAnswer(None, false)
  }

  lemma StoppedPayoutsArePuts(w: Books, s: Setting, batch: seq<Tx>, v: nat, answers: nat -> PayAnswer)
    requires UniqueGuids(batch) && v <= |batch|
    ensures s.PayAll(w, batch[..v], answers).rows == Puts(w.rows, batch, PayEdits(StoppedAnswers(batch, v, answers)))
  {
    var visited := set j | 0 <= j < v :: batch[j].guid;
    var results := StoppedAnswers(batch, v, answers);
    forall j | 0 <= j < v ensures PayEdits(answers)(batch[..v][j]) == PayEdits(results)(batch[..v][j]) {
      assert batch[j].guid in visited;
    }
    forall j | v <= j < |batch| ensures PayEdits(results)(batch[j]) == [] {
      assert batch[j].guid !in visited by {
        forall k | 0 <= k < v ensures batch[k].guid != batch[j].guid {
        }
      }
      assert results(batch[j].guid) == PayAnswer(None, false);
    }
    PayAllIsPuts(w, s, batch[..v], answers);
    PutsCongruence(w.rows, batch[..v], PayEdits(answers), PayEdits(results));
    PutsOfNothing(w.rows, batch, v, PayEdits(results));
  }

  /** The pass of this job: its pair, its terms, and the answers that its deposits get. */
  ghost predicate Serves(pass: Pass, job: Job, c: Config, answers: Pair -> PassAnswers) {
    && pass.pair == job.PairOf(c) && pass.terms == job.TermsOf(c)
    && pass.outcomes.deposit == answers(job.PairOf(c)).deposit
  }

  /** The work on one wallet, ledger checks included, is a pass over the table. */
  lemma JobIsPass(c: Config, job: Job, w: Books, a: PassAnswers) returns (pass: Pass)
    requires UniqueGuids(w.rows)
    ensures pass.pair == job.PairOf(c) && pass.terms == job.TermsOf(c) && pass.outcomes.deposit == a.deposit
    ensures JobBooks(c, job, w, a).rows == Apply(w.rows, pass)
  {
    var p, s := job.PairOf(c), job.SettingOf(c);
    var deposited := DepositBooks(c, job, w, a.deposit);
    DepositsKeepGuids(w.rows, p, job.TermsOf(c), a.deposit);
    FetchHasUniqueGuids(deposited.rows, WithdrawQuery(p, Processed), BATCH_LIMIT);
    var collects := CollectAllIsPuts(deposited, s, s.Batch(deposited.rows, Processed), a.collect);
    var collected := s.CollectAll(deposited, s.Batch(deposited.rows, Processed), a.collect);
    CollectsKeepGuids(deposited.rows, p, s.terms, collects);
    var batch := s.Batch(collected.rows, Settled);
    FetchHasUniqueGuids(collected.rows, WithdrawQuery(p, Settled), BATCH_LIMIT);
    var v := PayVisited(batch, a.pay, 0);
    StoppedPayoutsArePuts(collected, s, batch, v, a.pay);
    pass := Pass(p, job.TermsOf(c), s.terms, Outcomes(a.deposit, collects, StoppedAnswers(batch, v, a.pay)));
  }

  lemma DepositsKeepGuids(rows: seq<Tx>, p: Pair, terms: Terms, a: DepositAnswers)
    requires UniqueGuids(rows)
    ensures SameRows(rows, DepositPass(rows, p, terms, a)) && UniqueGuids(DepositPass(rows, p, terms, a))
  {
    EarlyPhasesKeepGuids(rows, p, terms, a);
    var rows2 := SettlePhase(InitPhase(rows, p, a.init), p, terms, a.settle);
    var rows3 := DonePhase(rows2, p, a.done);
    forall i | 0 <= i < |rows| ensures SameIdentity(rows2[i], rows3[i]) { DonePhaseAt(rows2, p, a.done, i); }
    SameRowsKeepGuids(rows2, rows3);
  }

  lemma CollectsKeepGuids(rows: seq<Tx>, p: Pair, s: SendingTerms, results: nat -> CollectResult)
    requires UniqueGuids(rows)
    ensures UniqueGuids(CollectPhase(rows, p, s, results))
  {
    var rows' := CollectPhase(rows, p, s, results);
    forall i | 0 <= i < |rows| ensures SameIdentity(rows[i], rows'[i]) { CollectPhaseAt(rows, p, s, results, i); }
    SameRowsKeepGuids(rows, rows');
  }

  lemma JobStepIsPass(c: Config, job: Job, w: Books, answers: Pair -> PassAnswers) returns (pass: Pass)
    requires UniqueGuids(w.rows)
    ensures Serves(pass, job, c, answers)
    ensures JobStep(c, answers)(w, job).rows == Apply(w.rows, pass)
  {
    pass := JobIsPass(c, job, w, answers(job.PairOf(c)));
  }

  lemma ApplyAllAppend(rows: seq<Tx>, passes: seq<Pass>, last: Pass)
    ensures ApplyAll(rows, passes + [last]) == Apply(ApplyAll(rows, passes), last)
  {
    assert (passes + [last])[..|passes|] == passes;
  }

  lemma NextJobIsPass(c: Config, jobs: seq<Job>, job: Job, w: Books, answers: Pair -> PassAnswers, passes: seq<Pass>)
    returns (pass: Pass)
    requires UniqueGuids(w.rows)
    requires Fold(jobs, w, JobStep(c, answers)).rows == ApplyAll(w.rows, passes)
    ensures Serves(pass, job, c, answers)
    ensures Fold(jobs + [job], w, JobStep(c, answers)).rows == ApplyAll(w.rows, passes + [pass])
  {
    FoldAppend(jobs, job, w, JobStep(c, answers));
    SchedulerNeverGoesBack(w.rows, passes);
    pass := JobStepIsPass(c, job, Fold(jobs, w, JobStep(c, answers)), answers);
    ApplyAllAppend(w.rows, passes, pass);
  }

  ghost predicate ServeAll(passes: seq<Pass>, jobs: seq<Job>, c: Config, answers: Pair -> PassAnswers) {
    |passes| == |jobs| && forall k :: 0 <= k < |jobs| ==> Serves(passes[k], jobs[k], c, answers)
  }

  lemma OneMoreServes(passes: seq<Pass>, pass: Pass, jobs: seq<Job>, job: Job, c: Config, answers: Pair -> PassAnswers)
    requires ServeAll(passes, jobs, c, answers) && Serves(pass, job, c, answers)
    ensures ServeAll(passes + [pass], jobs + [job], c, answers)
  {
  }

  ghost predicate TickOf(c: Config, jobs: seq<Job>, w: Books, answers: Pair -> PassAnswers, passes: seq<Pass>) {
    ServeAll(passes, jobs, c, answers) && Fold(jobs, w, JobStep(c, answers)).rows == ApplyAll(w.rows, passes)
  }

  lemma OneMoreJob(c: Config, init: seq<Job>, job: Job, jobs: seq<Job>, w: Books, answers: Pair -> PassAnswers,
                   earlier: seq<Pass>)
    returns (passes: seq<Pass>)
    requires UniqueGuids(w.rows) && TickOf(c, init, w, answers, earlier) && jobs == init + [job]
    ensures TickOf(c, jobs, w, answers, passes)
  {
    var last := NextJobIsPass(c, init, job, w, answers, earlier);
    OneMoreServes(earlier, last, init, job, c, answers);
    passes := earlier + [last];
  }

  /** A whole tick of the service is one pass per wallet, in the order of the jobs. */
  lemma {:induction false} TickIsPasses(c: Config, jobs: seq<Job>, w: Books, answers: Pair -> PassAnswers)
    returns (passes: seq<Pass>)
    requires UniqueGuids(w.rows)
    ensures TickOf(c, jobs, w, answers, passes)
  {
    if jobs == [] {
      passes := [];
    } else {
      var init, job := jobs[..|jobs| - 1], jobs[|jobs| - 1];
      var earlier := TickIsPasses(c, init, w, answers);
      SplitLast(jobs);
      passes := OneMoreJob(c, init, job, jobs, w, answers, earlier);
    }
  }
}
